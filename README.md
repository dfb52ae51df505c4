# A verified model of AMEBA's user-space core

AMEBA (A Minimal eBPF-based Audit) collects Linux telemetry with eBPF programs and hands the
records to user-space tools that validate, serialize, render and correlate them. This project
models those user-space parts in Dafny and proves what they promise. The eBPF programs
themselves are not modelled.

- **SPADE correlation engine** (`bin/transform_log_to_spade.py`), modelled by `SpadeEngine`,
  `SpadeFormat` and `SpadeRecords`.
  - Records are buffered in a window of 50.
  - The head of the window is paired with the earliest companion that has the same task context.
  - Cred and NewProcess records fill a per-pid cache, last write wins.
  - Every pair becomes one SPADE line, built from a fixed template.
  - At end of input the window is drained.
  - The correlator is a class whose methods are proved against pure step functions
    (`HeadStep`, `LineStep`, `Drain`, `FileRun`).
- **Superseded correlator** (`src/utils/transform/to_spade.py`), modelled by `LegacyCorrelator`.
  It uses a tail-first pop-and-re-append search, and the model pins down the order in which that
  search leaves the buffer.
- **Byte ring buffer** (`src/user/helper/ring_buffer.c`), modelled by `RingBuffer`. It is a class
  over an `array` that keeps one slot free.
- **Bounded JSON writers**, which append fragments until an overflow latches:
  - `json_buffer` of `src/user/jsonify/core.c` (`JsonCore`);
  - `str_buffer_state` of `src/user/jsonify.c` and its older copy (`StrJson`);
  - the JSON text they produce (`JsonText`, `BoundedText`);
  - the typed writers of `src/user/jsonify/types.c` (`JsonTypes`);
  - the control renderer of `src/user/jsonify/control.c` (`ControlJson`);
  - the record renderers (`RecordJson`, `LegacyJson`, `ConvertData`).
- **Record checks and serializers**: the common guard chains and the length-prefixed binary
  encoding (`Serializer`, `BinarySerializer`).
- **Control API request guards and dispatch** (`Api`).
- **Command-line parsers** of both generations:
  - the parse state (`ParseState`);
  - the shared help/usage/version flags (`ArgCommon`);
  - the control options (`Control`, `ArgControl`, `ArgsControl`);
  - the log options (`LogOptions`, `ArgAmeba`, `ArgsAmeba`);
  - the output options (`OutputArgs`, `UserArgs`, `CUserArgs`).
  Each parser is a sequence of argp calls on a static struct. The struct is a class, and every
  parser method is proved against a step function over the struct's value.
- **Configuration-file tokenizer** (`Config`).
- **Rotating log-directory writer** (`LogRotation`).

Shared libraries:
- CStd: the C library behaviour the code relies on, written out (`strtol`, `strtok`, `isspace`,
  NUL-terminated strings).
- `Decimal` and `Hex`: number rendering.
- Records: the fixed record layouts the writers read.
- Wrappers: Option and Result.

Where the written description of the system and the code disagree, the model follows the code:
- `long_to_hex_str(256)` is "100", three digits. The leading zero of the byte `01` is stripped
  too.
- The SPADE network formatters pass the local address length as the remote address size
  (`SpadeFormat.NetioArgsOf`).
- The first-generation control parser takes `-u`/`-U` for modes and lists. The second generation
  takes `-c`/`-C`.
- One ameba test expects help without a log directory to end with status 0. The code runs the
  final check after help, so the status becomes -1 (`ArgAmeba.HelpWithoutDirEndsInError`).
- Rotation does not move on to a new file. `generate_log_path` chooses the newest existing index
  without adding one, so rotating reopens the current file (`LogRotation.RotationStaysOnNewest`).

## Model

| member | source | states |
|---|---|---|
| SpadeRecords.MustGet | bin/transform_log_to_spade.py:144-153 | succeeds exactly on an object that holds the key and then returns the value under it; an object without the key gives a missing-key error naming that key |
| SpadeRecords.Index | bin/transform_log_to_spade.py:197-213 | `record[key]` succeeds exactly on an object holding the key and returns its value |
| SpadeRecords.LongToHexStr | bin/transform_log_to_spade.py:395-398 | the encoding succeeds exactly for an integer in the signed 32-bit range; it raises OverflowError exactly for an integer outside it, and fails otherwise for a value that is not an integer |
| SpadeRecords.LongToHexStrRoundTrip | bin/transform_log_to_spade.py:395-398 | for every value in the signed 32-bit range the encoding succeeds with 1 to 8 lowercase hex digits, starts with '0' only for 0, reads back as a 32-bit two's-complement number to the value itself, and is 8 digits long for a negative value |
| SpadeRecords.CommHex | bin/transform_log_to_spade.py:247-248 | succeeds only on a string and then gives two characters per character of it |
| SpadeRecords.CommHexRoundTrip | bin/transform_log_to_spade.py:247-249 | an ASCII process name always encodes, and decoding the hex text gives back its character codes in order |
| SpadeRecords.ProcInfosSetLastWriteWins | bin/transform_log_to_spade.py:95-100 | a Cred or NewProcess record becomes its pid's entry of its own type, replacing any earlier one; the pid's entry of the other type and every other pid are unchanged |
| SpadeRecords.EnrichmentParts | bin/transform_log_to_spade.py:230-250 | the enrichment is empty for an unknown pid or an entry with neither record; it starts with " uid=" and holds the eight credential fields exactly when a Cred record is cached; it holds " ppid=" and the hex `comm` exactly when a NewProcess record is cached, after the credential fields; with both cached it is exactly the credential fields followed by the new-process fields |
| SpadeFormat.CategoriesAgree | bin/transform_log_to_spade.py:448-512 | the chain on an AuditLogExit head's syscall number and the chain on a detail head's type pick the same category: a syscall selects category c exactly when it is in c's syscall list, each detail type selects its own category, and AuditLogExit, Cred and NewProcess types select none |
| SpadeFormat.NamespaceOperation | bin/transform_log_to_spade.py:195-203 | the operation is NEWPROCESS, SETNS or UNSHARE exactly for the integer sys_id CLONE, SETNS or UNSHARE respectively, and Python's `None` for every other value |
| SpadeFormat.NetioArgsOf | bin/transform_log_to_spade.py:288-392 | the syscall number and exit value come from the AuditLogExit and every other field from the detail record; the remote size is the local address length; a bind has an empty remote address |
| SpadeFormat.KillArgsOf | bin/transform_log_to_spade.py:401-426 | success is "yes" exactly when the exit value is 0, otherwise "no"; a0 and a1 are the hex encodings of target_pid and sig; a2 and a3 are "0"; items is 0; pid is acting_pid |
| SpadeFormat.FormatNamespace | bin/transform_log_to_spade.py:190-228 | a namespace line is produced exactly when the AuditLogExit's time, event id, syscall number and exit value and every namespace field read are there |
| SpadeFormat.FormatNetio | bin/transform_log_to_spade.py:253-392 | a detail record without `task_ctx_id` gives no line even though the value is not used; a line needs the detail pid's enrichment to succeed |
| SpadeFormat.FormatKill | bin/transform_log_to_spade.py:401-436 | a kill line is produced only for a target pid and a signal that are integers in the signed 32-bit range, and only when the acting pid's enrichment succeeds |
| SpadeFormat.FormatPair | bin/transform_log_to_spade.py:450-512 | every line of any category reads the AuditLogExit's time, event id, syscall number and exit value |
| SpadeFormat.FormatPairPreamble | bin/transform_log_to_spade.py:180-184 | every SPADE line of any category starts with the audit preamble built from the AuditLogExit's `las_audit` time and event id |
| SpadeEngine.Without | bin/transform_log_to_spade.py:118-121 | deleting index i keeps every element before i in place, shifts every element after it down by one, and loses exactly the element at i |
| SpadeEngine.NextFrom | bin/transform_log_to_spade.py:124-138 | the search answers (-1, None) or an index from the starting point on together with the record at that index |
| SpadeEngine.NextRecord | bin/transform_log_to_spade.py:124-138 | `buffer_get_next_record` answers (-1, None) only when no record matches, and otherwise the lowest matching index with its record, every record before it checked and not matching |
| SpadeEngine.NextFromIsEarliest | bin/transform_log_to_spade.py:124-138 | a found index is the lowest one whose record has the task context id and record type; no match means no record from the starting point matches; an error is the error of the first record whose keys cannot be read |
| SpadeEngine.Decide | bin/transform_log_to_spade.py:438-512 | the companion is -1 or an index of the rest of the buffer; a pair always has a companion, and a pair leaves the process cache unchanged |
| SpadeEngine.Render | bin/transform_log_to_spade.py:518-519 | nothing is printed without a pair; with a pair exactly one line is printed, the formatter's text for that pair |
| SpadeEngine.HeadStep | bin/transform_log_to_spade.py:438-522 | every call shortens the buffer by one or two records; an exception leaves the head removed and nothing else changed |
| SpadeEngine.HeadStepRemovesAtMostCompanion | bin/transform_log_to_spade.py:438-522 | after the head, at most one more record is removed, and it is a record of the rest with the head's task context id, every record before it having a readable task context id |
| SpadeEngine.CompanionWasSearched | bin/transform_log_to_spade.py:442-510 | a removed companion is the answer of `buffer_get_next_record` on the rest for the head's task context id |
| SpadeEngine.ExitHeadPair | bin/transform_log_to_spade.py:448-476 | an AuditLogExit head is paired only with a record of its syscall's detail category, and the head is the pair's exit record |
| SpadeEngine.DetailHeadPair | bin/transform_log_to_spade.py:477-512 | a detail head is paired only with an AuditLogExit of its category, which is the formatter's first argument |
| SpadeEngine.SpadeLineNeedsPair | bin/transform_log_to_spade.py:518-522 | a line is printed only for a head and a companion of one category; the AuditLogExit of the two is the formatter's first argument, and the companion is removed with the head |
| SpadeEngine.UnmatchedExitStillConsumed | bin/transform_log_to_spade.py:477-522 | a detail head whose AuditLogExit companion has a syscall outside the category prints nothing, yet that AuditLogExit is removed along with the head |
| SpadeEngine.CacheHeadStep | bin/transform_log_to_spade.py:513-514 | a Cred or NewProcess head prints nothing, removes only itself and becomes its pid's cache entry |
| SpadeEngine.LineStepKeepsWindow | bin/transform_log_to_spade.py:525-529 | a buffer of at most 49 records before a line holds at most 49 after it |
| SpadeEngine.ReadLinesKeepsWindow | bin/transform_log_to_spade.py:532-536 | reading a whole file from a buffer below the window never lets it reach the window of 50 |
| SpadeEngine.DrainEmptiesBuffer | bin/transform_log_to_spade.py:542-545 | the end-of-input loop stops with an empty buffer unless an exception escapes it, and it only appends to the printed output |
| SpadeEngine.Correlator.constructor | bin/transform_log_to_spade.py:81-89 | the buffer, the process cache and the output start empty |
| SpadeEngine.Correlator.Append | bin/transform_log_to_spade.py:106-107 | the item is added at the end of the buffer; the cache and output are unchanged |
| SpadeEngine.Correlator.Remove | bin/transform_log_to_spade.py:118-121 | returns the element at the index and deletes it, keeping the others in their order |
| SpadeEngine.Correlator.GetNextRecord | bin/transform_log_to_spade.py:124-138 | the scanning loop answers what the search function answers on the current buffer, so the earliest match |
| SpadeEngine.Correlator.Correlate | bin/transform_log_to_spade.py:440-512 | the companion index, the printed line and the new cache are those the decision and its rendering give, and an exception is theirs |
| SpadeEngine.Correlator.ProcessBuffer | bin/transform_log_to_spade.py:438-522 | the new buffer, cache and output are those of one head step, and an exception is reported exactly when the step raises one |
| SpadeEngine.Correlator.ProcessLine | bin/transform_log_to_spade.py:525-529 | appends the decoded line and runs one head step only when the buffer reaches the window |
| SpadeEngine.Correlator.ProcessFile | bin/transform_log_to_spade.py:532-545 | reads every line (a missing file or an exception prints one message), then drains the buffer |
| LegacyCorrelator.Reverse | src/utils/transform/to_spade.py:89-97 | the popped records, read back to front, as the re-append loop restores them |
| LegacyCorrelator.ReverseMultiset | src/utils/transform/to_spade.py:89-97 | reversing keeps every record |
| LegacyCorrelator.ScanStop | src/utils/transform/to_spade.py:89-95 | the search stops at the last record that matches or cannot be read, every later record failing the test, or at -1 |
| LegacyCorrelator.ScanNoneShape | src/utils/transform/to_spade.py:89-97 | with no match the buffer becomes the collected records followed by the buffer reversed |
| LegacyCorrelator.ScanFoundShape | src/utils/transform/to_spade.py:89-97 | with a match the result is the last matching record; the records before it stay in place and those after it come back reversed |
| LegacyCorrelator.ScanErrorShape | src/utils/transform/to_spade.py:89-92 | an exception in the search leaves only a proper prefix of the buffer: the popped records are lost |
| LegacyCorrelator.FindAndRemoveAccounts | src/utils/transform/to_spade.py:86-98 | without an exception no record is lost: the new buffer and the returned record together are the old buffer, and the returned record matches; with an exception records are only removed |
| LegacyCorrelator.FindNothingReverses | src/utils/transform/to_spade.py:89-97 | when the search answers None, no record matched and the whole buffer comes back reversed |
| LegacyCorrelator.FindReturnsLastMatch | src/utils/transform/to_spade.py:86-98 | a match returns the most recently appended matching record; the records before it keep their places and the records after it come back in reverse order |
| LegacyCorrelator.LegacyOperation | src/utils/transform/to_spade.py:51-59 | the operation is NEWPROCESS, SETNS or UNSHARE exactly for the string sys_id "clone", "setns" or "unshare", and Python's `None` otherwise |
| LegacyCorrelator.NamespaceClone | src/utils/transform/to_spade.py:41-83 | no Namespace record gives None; a line is produced only with a Namespace record whose sys_id is readable, and starts with the audit preamble and " ns_syscall=" |
| LegacyCorrelator.LineStepBuffering | src/utils/transform/to_spade.py:137-145 | every record other than an AuditLogExit is appended to the buffer; an AuditLogExit is never buffered |
| LegacyCorrelator.CloneSearchRemovesOnlyMatches | src/utils/transform/to_spade.py:101-109 | the clone correlation removes at most one Cred, one Namespace and one NewProcess record of its task context and adds none; an exception only loses records |
| LegacyCorrelator.ExitDiscarded | src/utils/transform/to_spade.py:118-134 | an AuditLogExit on an empty buffer, or for a syscall other than clone (220), changes nothing |
| LegacyCorrelator.CloneWithoutNamespacePrintsNone | src/utils/transform/to_spade.py:107-115 | a clone AuditLogExit prints exactly one line, and that line is "None" when no Namespace record of its context is buffered |
| LegacyCorrelator.NoDrain | src/utils/transform/to_spade.py:148-156 | a file of records that are not AuditLogExit leaves them all buffered in order and prints nothing: there is no end-of-input drain |
| LegacyCorrelator.Correlator.constructor | src/utils/transform/to_spade.py:38 | the buffer and the output start empty |
| LegacyCorrelator.Correlator.FindAndRemove | src/utils/transform/to_spade.py:86-98 | the pop-until-match loop and the re-append loop give the search's result and buffer; nothing is printed |
| LegacyCorrelator.Correlator.SearchClone | src/utils/transform/to_spade.py:107-109 | the three searches give the clone search's buffer and records |
| LegacyCorrelator.Correlator.ProcessExitForClone | src/utils/transform/to_spade.py:101-115 | the buffer and output are those of one clone step, and an exception is reported exactly when the step raises one |
| LegacyCorrelator.Correlator.ProcessExit | src/utils/transform/to_spade.py:118-134 | the buffer and output are those of one AuditLogExit step, with its exception |
| LegacyCorrelator.Correlator.ProcessLine | src/utils/transform/to_spade.py:137-145 | the buffer and output are those of one line step, with its exception |
| LegacyCorrelator.Correlator.ProcessFile | src/utils/transform/to_spade.py:148-156 | the buffer and output are those of reading the whole file, a missing file or an exception printing one message |
| LegacyJson.WriteLegacyCommon | src/jsonify_record.c:269-279 | the older header writer writes `type_name`, `type_id`, `event_id` in that order, and its total is the sum of the writes' returns |
| LegacyJson.WriteLegacyConnect | src/jsonify_record.c:281-299 | the keyed writes of the connect writer are the header, `fd`, `ret`, `pid`, then the local address with its port as stored and the remote address with its port through `ntohs` |
| LegacyJson.RenderLegacyConnect | src/jsonify_record.c:281-299 | the buffer holds the rendering of that field list as an object opened and closed around it, and the result is the sum of the writes' returns |
| LegacyJson.LegacyClassify | src/jsonify_record.c:301-328 | -1 exactly for no destination, -2 for an empty one, -3 for no data, -4 for empty data, -5 for data shorter than an int, -6 for a connect type of the wrong size, -7 for any other type; a connect record of its exact size is accepted and decoded |
| LegacyJson.LegacyRecordDataToJson | src/jsonify_record.c:301-330 | a failed guard returns its negative code with the destination untouched; an accepted record is rendered and the result is the writer's total |
| LegacyJson.LegacyRendering | src/jsonify_record.c:281-299 | when the connect object fits with a byte to spare, the buffer holds exactly that object and the result is its length without the braces; otherwise the buffer holds a prefix of it |
| RingBuffer.Stored | src/user/helper/ring_buffer.c:103-107 | the stored count `(head + size - tail) mod size` is below the slot count and is the distance from `tail` to `head` around the ring |
| RingBuffer.Available | src/user/helper/ring_buffer.c:81-87 | the free count plus the stored count is always `size - 1`: one slot is reserved |
| RingBuffer.PushResult | src/user/helper/ring_buffer.c:89-101 | after writing at `head`, the bytes from `tail` are the old stored bytes followed by the written ones, across the wrap |
| RingBuffer.PopResult | src/user/helper/ring_buffer.c:103-115 | the bytes copied out are the oldest `len` stored bytes, and the stored bytes left are the rest, in order |
| RingBuffer.Ring.Init | src/user/helper/ring_buffer.c:38-49 | a ring of `m` slots starts with `head = tail = 0`, nothing stored and `m - 1` free |
| RingBuffer.Ring.Alloc | src/user/helper/ring_buffer.c:26-52 | a ring is returned exactly when the allocator grants the requests and `n` is not UINT64_MAX (nor above what an allocation can hold); it then has `n + 1` slots, is empty and has `n` free |
| RingBuffer.Ring.Clear | src/user/helper/ring_buffer.c:63-69 | `head` and `tail` become 0: nothing stored, `size - 1` free |
| RingBuffer.Ring.IsFull | src/user/helper/ring_buffer.c:71-74 | true exactly when `size - 1` bytes are stored, that is when nothing is free |
| RingBuffer.Ring.IsEmpty | src/user/helper/ring_buffer.c:76-79 | true exactly when nothing is stored |
| RingBuffer.Ring.AvailableCapacity | src/user/helper/ring_buffer.c:81-87 | the free count, `size - 1` minus the stored count |
| RingBuffer.Ring.Push | src/user/helper/ring_buffer.c:89-101 | succeeds exactly when `len` does not exceed the free count, and then the stored bytes are the old ones followed by the `len` bytes of the source; on failure nothing changes |
| RingBuffer.Ring.WriteAtHead | src/user/helper/ring_buffer.c:94-98 | the copy loop appends the `len` source bytes to the stored ones |
| RingBuffer.Ring.Pop | src/user/helper/ring_buffer.c:103-115 | succeeds exactly when `len` bytes are stored, and then the destination receives the oldest `len` bytes and they are no longer stored; on failure nothing changes |
| RingBuffer.Ring.ReadAtTail | src/user/helper/ring_buffer.c:108-112 | the copy loop moves the oldest `len` stored bytes out, first in first out |
| RingBuffer.Ring.Peek | src/user/helper/ring_buffer.c:117-131 | as written: granted exactly when `len` does not exceed the FREE count; it then copies the slots from `tail` on, which are the oldest stored bytes when that many are stored; the ring is not changed |
| RingBuffer.Ring.Discard | src/user/helper/ring_buffer.c:133-140 | as written: granted exactly when `len` does not exceed the FREE count, and then `tail` moves on by `len` slots, dropping the oldest bytes when that many are stored |
| RingBuffer.Ring.PeekStored | src/user/helper/ring_buffer.c:117-131 | corrected: granted exactly when `len` bytes are stored, and then copies the oldest `len` of them without changing the ring |
| RingBuffer.Ring.DiscardStored | src/user/helper/ring_buffer.c:133-140 | corrected: granted exactly when `len` bytes are stored, and then only those oldest `len` bytes are dropped |
| RingBuffer.DiscardOnEmptyRing | src/user/helper/ring_buffer.c:133-140 | discarding one byte from an empty ring of 8 usable bytes is granted as written, and the ring then reports 8 bytes stored and itself full |
| RingBuffer.DiscardStoredOnEmptyRing | src/user/helper/ring_buffer.c:133-140 | the same request against the corrected guard is refused and the ring stays empty |
| RingBuffer.PushThenPop | src/user/helper/ring_buffer.c:89-115 | on an empty ring, a push of `len` bytes succeeds exactly when they fit, and a pop of the same length then returns the pushed bytes and leaves the ring empty, wherever `head` and `tail` stood |
| BoundedText.PutAllFits | src/user/jsonify/core.c:14-41 | fragments that fit before the terminator are appended whole, the room shrinks by their length, and the calls return that length |
| BoundedText.PutAllOverflows | src/user/jsonify/core.c:27-33 | a write that meets or passes the room left drops the room to 0 |
| BoundedText.PutAllLatched | src/user/jsonify/core.c:19-22 | once the room is 0, every further write is a no-op returning 0 |
| BoundedText.PutAllWholeFragments | src/user/jsonify/core.c:14-41 | the committed text is always the old text followed by a whole number of the fragments, and while room is left, text and room add up to what they did before |
| BoundedText.PutAllPrefix | src/user/jsonify/core.c:14-41 | what the buffer shows (committed text and any truncated spill) is a prefix of the intended text, and nothing spills while room is left |
| BoundedText.ConcatAppend | src/user/jsonify/core.c:80-91 | the text of fragments written in two runs is the two texts in order |
| BoundedText.PutAllAppend | src/user/jsonify/core.c:80-91 | writing fragments in two runs is writing them in one, and the returned totals add up |
| JsonText.Vsnprintf | src/user/jsonify/core.c:26 | `vsnprintf` into `room` bytes copies at most `room - 1` characters of the fragment, ends them with a NUL, leaves the bytes before untouched and returns the full formatted length |
| JsonText.CStringAt | src/user/jsonify/core.c:55-64 | a buffer with a NUL after NUL-free text reads as that text |
| JsonText.FieldAppended | src/user/jsonify/core.c:43-48 | a keyed write that fits appends a comma exactly when more than the opening brace is already written, then its text |
| JsonText.WriteFieldsLatched | src/user/jsonify/core.c:19-22 | keyed writes to a full buffer change nothing and return 0 |
| JsonText.WriteFieldsAppend | src/user/jsonify/core.c:43-48 | keyed writes in two runs equal the same writes in one run, returns included |
| JsonText.WriteFieldsFlat | src/user/jsonify/core.c:43-48 | after the opening brace, a sequence of keyed writes writes the same fragments as the fields with a comma fragment between consecutive ones |
| JsonText.FlatText | src/user/jsonify/core.c:43-48 | the text of those fragments is the fields' texts joined by commas |
| JsonText.ObjectRendering | src/user/jsonify/core.c:55-78 | an object written into a buffer of `len` bytes is `{f1,...,fn}` in full with the returns summing to its length when it fits before the terminator, leaves no room when it does not, and always shows a prefix of the full object |
| JsonText.HexPairsConcat | src/user/jsonify/core.c:85-88 | the `%02x` pairs of the bytes concatenate to the hex text of the bytes |
| JsonText.BytesFragsText | src/user/jsonify/core.c:80-91 | a bytes field reads `"key":"<hex of the bytes>"` |
| JsonCore.TruncDiv | src/user/jsonify/core.c:145 | C's division truncates toward zero for either sign |
| JsonCore.ToU64 | src/user/jsonify/core.c:145 | the cast to an unsigned 64-bit value is the value modulo 2^64 in range, the value itself when it already fits |
| JsonCore.TimespecMillis | src/user/jsonify/core.c:145 | for a valid nanosecond count the fraction is exactly three digits whose value is the milliseconds |
| JsonCore.JsonBuffer.Init | src/user/jsonify/core.c:55-64 | the buffer keeps one byte for the terminator, starts with nothing written, all the rest as room and no overflow |
| JsonCore.JsonBuffer.Shown | src/user/jsonify/core.c:55-64 | read as a C string, the buffer holds the committed text followed by any truncated fragment |
| JsonCore.JsonBuffer.HasOverflown | src/user/jsonify/core.c:50-53 | 1 exactly when a write did not fit into a buffer that had room, otherwise 0 |
| JsonCore.JsonBuffer.Snprintf | src/user/jsonify/core.c:14-41 | one bounded append of a formatted fragment; the flag latches the first time a fragment does not fit in the room left |
| JsonCore.JsonBuffer.WriteElementDivider | src/user/jsonify/core.c:43-48 | writes a comma exactly when more than one byte is committed; a set overflow flag stays set |
| JsonCore.JsonBuffer.WriteKeyed | src/user/jsonify/core.c:93-139 | any keyed write of one formatted fragment is the divider and then the fragment, with their returns summed |
| JsonCore.JsonBuffer.OpenObj | src/user/jsonify/core.c:70-73 | appends `{` |
| JsonCore.JsonBuffer.CloseObj | src/user/jsonify/core.c:75-78 | appends `}` |
| JsonCore.JsonBuffer.WriteHexPairs | src/user/jsonify/core.c:85-88 | the loop writes one `%02x` pair per byte in order, returns summed |
| JsonCore.JsonBuffer.WriteBytes | src/user/jsonify/core.c:80-91 | writes the divider, `"key":"`, the hex pairs and the closing quote, returns summed |
| JsonCore.JsonBuffer.WriteInt | src/user/jsonify/core.c:93-99 | writes the field `"key":<signed decimal>` |
| JsonCore.JsonBuffer.WriteUint | src/user/jsonify/core.c:101-107 | writes the field `"key":<unsigned decimal>` |
| JsonCore.JsonBuffer.WriteStr | src/user/jsonify/core.c:109-115 | writes the field `"key":"value"`, the value unescaped |
| JsonCore.JsonBuffer.WriteRaw | src/user/jsonify/core.c:117-123 | writes the field `"key":value`, the value verbatim |
| JsonCore.JsonBuffer.WriteUlong | src/user/jsonify/core.c:125-131 | writes the field `"key":<unsigned long decimal>` |
| JsonCore.JsonBuffer.WriteLong | src/user/jsonify/core.c:133-139 | writes the field `"key":<long decimal>` |
| JsonCore.JsonBuffer.WriteTimespec64 | src/user/jsonify/core.c:141-147 | writes `"key":<seconds as unsigned>.<milliseconds, three digits>` |
| StrJson.KeyedNonEmpty | src/user/jsonify.c:146-153 | a keyed field's text is never empty, so the comma rule separates every pair of fields |
| StrJson.Port | src/user/jsonify.c:245-253 | the port field is the 16-bit `sin_port` read in host order, byte-swapped by `ntohs` only for network byte order |
| StrJson.OneFieldObject | src/user/jsonify.c:293-297 | an object of one field is that field between braces |
| StrJson.TwoFieldObject | src/user/jsonify.c:229-263 | an object of two fields is both texts between braces with one comma |
| StrJson.IpFieldsShort | src/user/jsonify.c:237-291 | an `ip` field (an address text shorter than INET6_ADDRSTRLEN, or "ERROR") and a 16-bit or -1 port make an object of at most 80 characters |
| StrJson.Ipv4ObjectShort | src/user/jsonify.c:237-263 | the IPv4 sub-object is at most 80 characters |
| StrJson.RawObjectShort | src/user/jsonify.c:229-235 | the raw fallback (at most 128 bytes in hex and their count) is at most 300 characters |
| StrJson.UnixObjectShort | src/user/jsonify.c:293-297 | the unix-path sub-object is at most 150 characters |
| StrJson.SockaddrFits | src/user/jsonify.c:304-344 | for every family the sub-object fits the 1024-byte child buffer before its terminator, so it is never truncated |
| StrJson.SysIdName | src/user/jsonify.c:200-227 | the five known calls get their own names, every other id "UNKNOWN" |
| StrJson.Chain2 | src/user/jsonify.c:229-235 | two keyed writes in a row are the write of both fields, their returns summed |
| StrJson.WroteAppend | src/user/jsonify.c:368-387 | writes of one field list and then another are the writes of the joined list |
| StrJson.StrBuffer.Init | src/user/jsonify.c:17-29 | the buffer keeps one byte for the terminator and starts with nothing written and all the rest as room |
| StrJson.StrBuffer.Shown | src/user/jsonify.c:17-24 | read as a C string, the buffer holds the committed text followed by any truncated fragment |
| StrJson.StrBuffer.Snprintf | src/user/jsonify.c:31-57 | the bounded append of `json_buffer` without the overflow flag: fitting fragments are committed, the first that does not fit drops the room to 0 |
| StrJson.StrBuffer.ObjOpen | src/user/jsonify.c:63-66 | appends `{` |
| StrJson.StrBuffer.ObjClose | src/user/jsonify.c:68-71 | appends `}` |
| StrJson.StrBuffer.WriteComma | src/user/jsonify.c:90-91 | writes a comma exactly when more than one byte is committed |
| StrJson.StrBuffer.WriteKeyed | src/user/jsonify.c:87-176 | any keyed write of one formatted fragment is the comma rule, then the fragment, returns summed |
| StrJson.StrBuffer.WriteHexPairs | src/user/jsonify.c:79-82 | the loop writes one `%02x` pair per byte in order |
| StrJson.StrBuffer.WriteBytes | src/user/jsonify.c:73-85 | writes the comma rule, `"key":"`, the hex pairs and the closing quote |
| StrJson.StrBuffer.WriteInt | src/user/jsonify.c:87-103 | writes `"key":<signed decimal>` (also the pid and record-type writers) |
| StrJson.StrBuffer.WriteUint | src/user/jsonify.c:105-135 | writes `"key":<unsigned decimal>` (also the uid, gid and inode writers) |
| StrJson.StrBuffer.WriteUlong | src/user/jsonify.c:164-176 | writes `"key":<unsigned long decimal>` (also the event-id writer) |
| StrJson.StrBuffer.WriteStr | src/user/jsonify.c:146-153 | writes `"key":"value"`, the value unescaped |
| StrJson.StrBuffer.WriteRaw | src/user/jsonify.c:155-162 | writes `"key":value`, the value verbatim |
| StrJson.StrBuffer.WriteVersion | src/user/jsonify.c:178-189 | writes `"key":"major.minor.patch"` |
| StrJson.StrBuffer.WriteSockaddrRaw | src/user/jsonify.c:229-235 | writes the first `addrlen` address bytes in hex, then `sockaddr_len` |
| StrJson.StrBuffer.WriteIp | src/user/jsonify.c:237-291 | writes `ip` and `port`; a failed `inet_ntop` gives "ERROR" and port -1 |
| StrJson.StrBuffer.WriteSockaddrBody | src/user/jsonify.c:317-336 | chooses the fields by family: IPv4 dotted quad, IPv6 text, unix path, else the raw bytes |
| StrJson.StrBuffer.WriteElemSockaddr | src/user/jsonify.c:304-344 | writes the whole sub-object as the raw value of `key`, or nothing (returning 0) when the child buffer cannot be allocated |
| StrJson.StrBuffer.WriteSysId | src/user/jsonify.c:200-227 | writes the call's name as a string field |
| StrJson.StrBuffer.WriteElemCommon | src/user/jsonify.c:346-356 | writes `type_name`, `type_id` and `version` in that order |
| StrJson.StrBuffer.WriteElemTimestamp | src/user/jsonify.c:358-366 | writes `event_id` |
| RecordJson.RenderedObject | src/user/jsonify.c:368-387 | a rendered record is the whole object when it fits with a byte to spare, the writers then returning the length of the text between the braces; otherwise a prefix of the object |
| RecordJson.OpenRecord | src/user/jsonify.c:372-374 | a fresh string buffer over `dst` with the opening brace written |
| RecordJson.CloseRecord | src/user/jsonify.c:384-386 | after the closing brace the buffer shows the rendering of the fields written since the brace |
| RecordJson.WriteHeader | src/user/jsonify.c:376-377 | every record opens with `type_name`, `type_id`, `version` and `event_id` |
| RecordJson.WriteConnect | src/user/jsonify.c:376-382 | the connect writer writes the header, `pid`, `fd`, `ret`, then the `local` and `remote` sub-objects, returns summed |
| RecordJson.RenderConnect | src/user/jsonify.c:368-387 | `record_connect_to_json` leaves the rendering of the connect fields in `dst` |
| RecordJson.WriteAccept | src/user/jsonify.c:397-402 | the accept writer writes the header, `pid`, `fd`, then `local` and `remote` |
| RecordJson.RenderAccept | src/user/jsonify.c:389-407 | `record_accept_to_json` leaves the rendering of the accept fields in `dst` |
| RecordJson.WriteNewProcess | src/user/jsonify.c:443-447 | the new-process writer writes the header, `pid`, `ppid`, then the `sys_id` name |
| RecordJson.RenderNewProcess | src/user/jsonify.c:435-453 | `record_new_process_to_json` leaves the rendering of those fields in `dst` |
| RecordJson.WriteNamespaceIds | src/user/jsonify.c:423-428 | the six namespace inodes in their order, each unsigned |
| RecordJson.WriteNamespace | src/user/jsonify.c:419-428 | the namespace writer writes the header, `pid`, the `sys_id` name and the six inodes |
| RecordJson.RenderNamespace | src/user/jsonify.c:409-433 | `record_namespace_to_json` leaves the rendering of those fields in `dst` |
| RecordJson.WriteUids | src/user/jsonify.c:469-472 | `uid`, `euid`, `suid`, `fsuid` in that order, each unsigned |
| RecordJson.WriteGids | src/user/jsonify.c:473-476 | `gid`, `egid`, `sgid`, `fsgid` in that order, each unsigned |
| RecordJson.WriteCred | src/user/jsonify.c:465-476 | the cred writer writes the header, `pid`, the `sys_id` name, the user ids and the group ids |
| RecordJson.RenderCred | src/user/jsonify.c:455-479 | `record_cred_to_json` leaves the rendering of those fields in `dst` |
| RecordJson.Classify | src/user/jsonify.c:481-525 | each guard error holds exactly under its condition, checked in order (null destination, empty destination, missing or empty data, short header, bad magic, size not that of the type's struct, unknown type), and a record passes exactly when all hold |
| RecordJson.RecordDataToJson | src/user/jsonify.c:481-526 | a guard error is returned with `dst` untouched; a passing record is rendered by the writer of its type and the result is that writer's non-negative total |
| RecordJson.DecodedKeyed | src/user/jsonify.c:368-479 | every writer's fields are keyed, so none renders empty |
| RecordJson.RecordRendering | src/user/jsonify.c:481-526 | for an accepted record, `dst` holds the JSON object of its fields when it fits with a byte to spare, and otherwise a prefix of it |
| Records.U16At | src/common/types.h:59-64 | a 16-bit field read in host (little-endian) order is below 2^16 |
| Records.I32At | src/common/types.h:66-71 | a signed 32-bit field in two's complement is within the C `int` range, negative exactly when its top bit is set |
| Records.NtohsInvolution | src/user/jsonify.c:245-250 | swapping the bytes of a 16-bit value twice gives it back |
| Records.NtohsReadsBigEndian | src/user/jsonify.c:245-250 | `ntohs` of a host-order read is the big-endian (network order) value of the same two bytes |
| Records.DecodeCommon | src/common/types.h:66-71 | the common header read from a record has a version within the field ranges (16-bit major, 8-bit minor and patch) |
| Records.DecodeNewProcess | src/common/types.h:85-93 | a new-process record's version is within the field ranges, its event id an `unsigned long long` and its pids and syscall id C `int` values |
| Records.DecodeCred | src/common/types.h:95-109 | a cred record's version is within the field ranges, its pid and syscall id C `int` values and its eight ids 32-bit unsigned values |
| Records.DecodeNamespace | src/common/types.h:111-123 | a namespace record's version is within the field ranges, its pid and syscall id C `int` values and its six inode numbers 32-bit unsigned values |
| Records.DecodeSockaddr | src/common/types.h:78-83 | a socket-address element carries its whole 128-byte address array |
| Records.DecodeConnect | src/common/types.h:125-134 | a connect record carries two whole socket-address elements |
| Records.DecodeAccept | src/common/types.h:136-144 | an accept record carries two whole socket-address elements |
| Records.VersionTextInjective | src/user/jsonify.c:178-189 | two versions written as the same `major.minor.patch` text are the same version |
| Records.Ipv4TextInjective | src/user/jsonify.c:255 | two IPv4 addresses written as the same dotted quad have the same four address bytes |
| JsonTypes.TypesSysIdName | src/user/jsonify/types.c:59-96 | the nine known calls get their names (the five the string writer knows with the same names), every other id "UNKNOWN" |
| JsonTypes.SysIdNameRoundTrip | src/user/jsonify/types.c:59-96 | a written name reads back as the id it was written for, and "UNKNOWN" as no id |
| JsonTypes.TruncatedVersionText | src/user/jsonify/types.c:48-57 | as written: the text kept by `snprintf` into 13 bytes is a prefix of the version text, cut to 12 characters when it is longer |
| JsonTypes.TruncatedVersionCollides | src/user/jsonify/types.c:48-57 | as written, version 65535.255.255 is written as "65535.255.25", the same text as version 65535.255.250 |
| JsonTypes.VersionTextFitsWhole | src/user/jsonify/types.c:48-57 | every version in the field ranges is at most 13 characters, so a buffer one byte longer keeps it whole (and readable back) |
| JsonTypes.PathStart | src/user/jsonify/types.c:160-168 | an abstract unix socket (first path byte 0) is named from the next byte |
| JsonTypes.TypesIpShort | src/user/jsonify/types.c:106-158 | `family`, `ip` and `port` make an object of at most 100 characters |
| JsonTypes.UnixShort | src/user/jsonify/types.c:160-173 | the unix sub-object is at most 200 characters |
| JsonTypes.NetlinkShort | src/user/jsonify/types.c:180-187 | the netlink sub-object is at most 100 characters |
| JsonTypes.TypesSockaddrFits | src/user/jsonify/types.c:189-226 | for every family the sub-object fits the 1024-byte child buffer, so it is never truncated |
| JsonTypes.WriteVersion | src/user/jsonify/types.c:48-57 | as written: writes `"key":"…"` with the version text `snprintf` leaves in the 13-byte buffer, cut to 12 characters when longer |
| JsonTypes.WriteSysId | src/user/jsonify/types.c:59-96 | writes the call's name under `sys_id` |
| JsonTypes.WriteSockaddrRaw | src/user/jsonify/types.c:98-104 | writes the first `addrlen` address bytes in hex, then `sockaddr_len` |
| JsonTypes.WriteIp | src/user/jsonify/types.c:106-158 | writes `family`, `ip` and `port`; a failed `inet_ntop` gives "ERROR" and port -1 |
| JsonTypes.WriteSockaddrUn | src/user/jsonify/types.c:160-173 | writes `family`, then `sun_path` from its start |
| JsonTypes.WriteSockaddrNl | src/user/jsonify/types.c:180-187 | writes `family`, `pid` and `groups` |
| JsonTypes.WriteSockaddrBody | src/user/jsonify/types.c:202-219 | chooses the fields by family: IPv4, IPv6, unix, netlink, else the raw bytes |
| JsonTypes.WriteElemSockaddr | src/user/jsonify/types.c:189-226 | writes the whole sub-object as the raw value of `key`, or nothing (returning 0) when the child buffer cannot be allocated |
| JsonTypes.WriteCommon | src/user/jsonify/types.c:235-246 | writes `record_name`, `record_type`, `record_version` (the truncated version text, as written) and `event_id` in that order |
| Control.WithMode | src/common/control.h:18-43 | setting one mode changes that mode and nothing else in the struct |
| Control.WithList | src/common/control.h:18-43 | setting one list's slots and length changes that list and nothing else |
| Control.ZeroValue | src/common/control.h:18-43 | the all-zero struct has every mode NOT_SET, every list zeroed with length 0, and a zero lock |
| Control.IgnoreAll | src/common/control.c:23-38 | every mode IGNORE, every list zeroed and empty, the lock kept |
| Control.ControlInput.constructor | src/common/control.h:18-43 | a zero-initialised struct, with three arrays of MAX_LIST_ITEMS slots of its own |
| Control.ControlInput.SetMode | src/user/args/control.c:46 | a mode assignment changes that field only |
| Control.ControlInput.SetLen | src/user/args/control.c:110 | a length assignment changes that length only |
| Control.ControlInput.CopyFrom | src/user/arg/control.c:112-118 | `memcpy` of the whole struct: every field and every slot becomes the source's |
| Control.ControlInput.Zero | src/user/arg/control.c:112-118 | `memset` of the whole struct leaves the all-zero value |
| Control.ZeroSlots | src/user/arg/control.c:224-231 | every slot of the id array becomes 0 |
| Control.CopySlots | src/user/arg/control.c:112-118 | the destination array becomes a copy of the source array |
| Control.SetIgnoreAll | src/common/control.c:23-38 | a non-null struct becomes its IgnoreAll value; a null one is left alone |
| Control.SetDefault | src/common/control.c:40-43 | the same as SetIgnoreAll |
| Control.ModeOption | src/user/arg/control.c:47-64 | exactly the letters g, c, p, k and n name a mode option |
| Control.ListOption | src/user/arg/control.c:47-64 | exactly the letters C, P and K name a list option |
| Control.ModeOf | src/user/args/control.c:42-60 | IGNORE exactly for the prefixes of "ignore" (the empty word included), CAPTURE exactly for the other prefixes of "capture", and nothing for every other word |
| Control.ModeOfExamples | src/user/args/control.c:42-60 | "" and "i" select IGNORE, "c" and "capture" CAPTURE, "x" and "ignores" nothing |
| Control.ItemOf | src/user/args/control.c:73-96 | a token is accepted exactly when `strtol` consumes all of it and the value is not negative |
| Control.ParseItems | src/user/args/control.c:62-113 | the loop stores at most `max` values and at most one per token |
| Control.ParseItemsAfter | src/user/args/control.c:71-98 | after `i` accepted tokens the loop goes on over the rest with `max - i` slots |
| Control.ParseItemsOk | src/user/args/control.c:62-113 | a list is accepted exactly when it has at most `max` tokens, all valid, and then holds their values in order |
| Control.ParseItemsFailure | src/user/args/control.c:62-113 | a refused list has still written the values accepted before the failing token or the token left over |
| Control.Renderings | src/user/jsonify/control.c:51-53 | one `%d` rendering per value |
| Control.ParseListRoundTrip | src/user/args/control.c:62-113 | the comma-joined decimal renderings of at most `max` non-negative ints parse back to exactly those values, accepted |
| Control.ElevenItemsFail | src/user/args/control.c:102-108 | eleven valid tokens fail, after the first ten values were written |
| Control.AfterList | src/user/args/control.c:62-113 | the accepted values overwrite the front slots whether or not the list succeeds; the length changes only on success; every other field is kept |
| Control.ListOptionMeaning | src/user/args/control.c:62-113 | a list option succeeds exactly when its text has at most ten tokens, each a non-negative decimal, and then the length is the token count and the front slots hold the values |
| Control.FrontThenRest | src/user/args/control.c:96 | an array whose front holds the written values and whose other slots kept their old values is those values followed by the old rest |
| Control.StoreTokens | src/user/args/control.c:71-98 | the loop stores valid token values at the front, stopping at the first invalid token or at `max`, and leaves the other slots alone |
| Control.FillIntList | src/user/args/control.c:62-113 | the result and the length are those of the list parse, and the array is the written values followed by its old rest |
| ControlJson.TraceModeName | src/user/jsonify/control.c:6-22 | "ignore" exactly for IGNORE, "capture" exactly for CAPTURE, "unknown" for every other value |
| ControlJson.LockName | src/user/jsonify/control.c:24-40 | "free" exactly for FREE, "taken" exactly for TAKEN, "unknown" otherwise |
| ControlJson.ListItems | src/user/jsonify/control.c:49 | the first `len` slots are printed, none for a negative length |
| ControlJson.ItemsTextEmpty | src/user/jsonify/control.c:49-54 | the loop prints nothing exactly when there is no item |
| ControlJson.IntListTextEmpty | src/user/jsonify/control.c:48-55 | the list text is "[]" exactly for the empty list |
| ControlJson.ItemsTextWidth | src/user/jsonify/control.c:49-54 | `n` rounds print at most 13 characters each |
| ControlJson.ItemsTextJoin | src/user/jsonify/control.c:49-54 | the rounds print the renderings joined by ", " |
| ControlJson.SpacedItems | src/user/jsonify/control.c:49-54 | each printed item, leading space and all, is accepted by the list parser with its value |
| ControlJson.AcceptedItemsParse | src/user/args/control.c:62-113 | at most ten accepted items parse to exactly their values |
| ControlJson.SpacedTokens | src/user/jsonify/control.c:49-54 | splitting the printed list at the commas gives back the printed items |
| ControlJson.ListTextParsesBack | src/user/jsonify/control.c:42-57 | the text between the brackets of a printed list of at most ten non-negative ints parses back, through the option parser, to the same list |
| ControlJson.ListTextFits | src/user/jsonify/control.c:42-57 | with 13 characters per item, any ten ints fit a `list_str` of 133 bytes |
| ControlJson.LargePidsText | src/user/jsonify/control.c:49-54 | `n` rounds over five-digit ids print exactly 7 characters each |
| ControlJson.ListStrOverflowsAsWritten | src/user/jsonify/control.c:44-55 | as written, ten ids of 32767 print 70 characters, which overflow the 64-byte `list_str` |
| ControlJson.Sprintf | src/user/jsonify/control.c:48 | `sprintf` writes the fragment and a NUL at the index and returns its length |
| ControlJson.PrintItem | src/user/jsonify/control.c:51-53 | one round appends the item and its separator |
| ControlJson.PrintItems | src/user/jsonify/control.c:49-54 | the loop leaves "[" followed by all the items in the buffer |
| ControlJson.FormatIntList | src/user/jsonify/control.c:44-55 | a `list_str` large enough holds the whole list text and its NUL |
| ControlJson.WriteTraceMode | src/user/jsonify/control.c:6-22 | writes the mode's name as a string field |
| ControlJson.WriteControlLock | src/user/jsonify/control.c:24-40 | writes the lock's name as a string field |
| ControlJson.WriteIntList | src/user/jsonify/control.c:42-57 | corrected: writes `"key":[…]`, the first `len` ids separated by ", ", for any list the parser accepts |
| ControlJson.WriteIntListAsWritten | src/user/jsonify/control.c:42-57 | as written: the same field, callable only for lists whose text fits 64 bytes |
| ControlJson.ControlFields | src/user/jsonify/control.c:59-74 | nine fields in the writer's order |
| ControlJson.WriteGlobal | src/user/jsonify/control.c:63-64 | writes `global_mode` then `lock` |
| ControlJson.WriteSubjectModes | src/user/jsonify/control.c:65-68 | writes `netio_mode`, `pid_mode`, `ppid_mode` and `uid_mode` |
| ControlJson.WriteLists | src/user/jsonify/control.c:69-71 | writes `pids`, `ppids` and `uids` |
| ControlJson.WriteControlInput | src/user/jsonify/control.c:59-74 | writes all nine fields in order, and returns the sum of their byte counts |
| Serializer.CommonCheck | src/user/record/serializer/serializer.c:9-27 | the checks run in order: a null destination, then a zero length, then a null or empty record, then a record shorter than `elem_common`, then a wrong magic; each failure has its own code, and 0 comes back exactly when every check passes |
| Serializer.CommonCheckReadsHeaderOnly | src/user/data/serializer/serializer.c:9-29 | the answer depends only on the header bytes of the record: the bytes after `elem_common` never change it |
| BinarySerializer.LeValueOfBytes | src/user/record/serializer/binary.c:25 | reading back the little-endian bytes of a length that fits gives the length |
| BinarySerializer.UnframeFrame | src/user/record/serializer/binary.c:18-30 | a frame of the 8-byte length prefix and the payload, followed by anything, reads back as the payload with the rest left over |
| BinarySerializer.UnframesFrames | src/user/data/serializer/binary.c:18-30 | frames written one after another read back as the payloads they were written from, in order |
| BinarySerializer.SerializeResult | src/user/data/serializer/binary.c:7-31 | a common-check error comes back unchanged; a frame longer than the destination gives ERR_DST_INSUFFICIENT; otherwise the answer is positive and is the frame's length |
| BinarySerializer.SerializeBinary | src/user/record/serializer/binary.c:7-31 | on success the destination starts with the frame of the record and is unchanged after it; on an error it is not touched |
| ConvertData.ConvertSize | src/user/convert_data.c:33-68 | exactly the six known record types have a size, and for the five types the other converter shares it agrees with its table |
| ConvertData.Outcome | src/user/convert_data.c:10-77 | a common-check error is returned unchanged; ERR_DATA_UNKNOWN exactly for a well-formed record of an unknown type; ERR_DATA_SIZE_MISMATCH exactly for a known type whose length is not its size; no other codes |
| ConvertData.NoRoomWritesNothing | src/user/convert_data.c:29-31 | a one-byte destination holds no character of the object |
| ConvertData.EmptyDestinationAcceptedAsWritten | src/user/convert_data.c:70-76 | as written, a one-byte destination and a valid record give 0 although nothing was written; the corrected converter gives ERR_DST_INSUFFICIENT |
| ConvertData.ConvertSucceeds | src/user/convert_data.c:10-77 | corrected: 0 exactly when the checks pass, the record has a known type and its exact size, and the whole object fits before the terminator |
| ConvertData.GuardsAgreeWithRecordJson | src/user/convert_data.c:12-68 | for the types both converters know, the guard errors match those of `jsonify_record_data_to_json`, and a record it accepts is converted or reported as not fitting |
| ConvertData.ConvertAsWritten | src/user/convert_data.c:70-76 | as written, a one-byte destination is never reported insufficient |
| ConvertData.Convert | src/user/convert_data.c:10-77 | corrected: a one-byte destination with a valid record of a known type and its exact size is reported insufficient |
| ConvertData.ConvertDataToJson | src/user/convert_data.c:10-77 | the answer is the converter's as written; a failed common check leaves the destination untouched, a type or size error leaves "{" in it, 0 with at least two bytes of room leaves the whole object, an overflow leaves a prefix of the object |
| ArgsControl.ArgsModeOption | src/user/args/control.c:12-22 | exactly the letters g, u, p, k and n name a mode option |
| ArgsControl.ArgsListOption | src/user/args/control.c:12-22 | exactly the letters U, P and K name a list option |
| ArgsControl.Defaults | src/user/args/control.c:186-197 | the lock FREE, every mode IGNORE, every length 0, the array slots kept |
| ArgsControl.Step | src/user/args/control.c:129-174 | a call answers 0 exactly for ARGP_KEY_END, a mode option with a prefix of "ignore" or "capture", or a list option whose list is accepted; any other answer is ARGP_ERR_UNKNOWN, or EX_USAGE for a positional argument; only a list option changes the struct when it refuses |
| ArgsControl.Verdict | src/user/args/control.c:42-174 | a call answering 0 lets argp go on; a refused mode or list has ended the program with -1 through `argp_failure`, a positional argument or unknown option with EX_USAGE; ARGP_ERR_UNKNOWN for a special key is passed over |
| ArgsControl.Run | src/user/args/control.c:199-210 | parsing keeps the struct well-formed, and the parse either returns 0 or ends the program with -1 or EX_USAGE |
| ArgsControl.RefusedOptionExits | src/user/args/control.c:57-58 | a refused mode or list option ends the program with status -1, whatever options follow it |
| ArgsControl.SpecialKeysIgnored | src/user/args/control.c:169-170 | ARGP_KEY_INIT, ARGP_KEY_ERROR and the other special keys get ARGP_ERR_UNKNOWN, and argp passes over them: the parse goes on as if they had not come |
| ArgsControl.ModeStepMeaning | src/user/args/control.c:42-60 | a mode option is accepted exactly for a prefix of "ignore" or "capture", sets IGNORE for a prefix of "ignore" and CAPTURE otherwise, and a rejected one changes nothing |
| ArgsControl.ListStepMeaning | src/user/args/control.c:62-113 | a list option answers 0 exactly when it has at most ten tokens, all non-negative decimals, and then the length is the token count; a rejected list keeps its length |
| ArgsControl.RunKeepsUnnamedMode | src/user/args/control.c:129-174 | a mode that no option names keeps the value it had before parsing |
| ArgsControl.InitControlInput | src/user/args/control.c:186-197 | the struct becomes its defaults |
| ArgsControl.ParseMode | src/user/args/control.c:42-60 | the mode named by the word is stored and 0 returned, or ARGP_ERR_UNKNOWN with the struct untouched |
| ArgsControl.ParseIntList | src/user/args/control.c:62-113 | the struct becomes the list parse's result and the status is 0 exactly when the list is accepted |
| ArgsControl.ValidateControlInput | src/user/args/control.c:115-127 | every struct is accepted |
| ArgsControl.ParseOpt | src/user/args/control.c:129-174 | the struct and the status are those of one option step |
| ArgsControl.MustParse | src/user/args/control.c:199-210 | the struct and the way the parse ends are those of the defaults followed by the options in order, stopping at the first call that ends the program |
| Api.U32AtBytes | src/user/api/common.c:35 | a 32-bit value stored in host order reads back as itself |
| Api.DecodeVersionBytes | src/user/api/common.c:36 | a stored `elem_version` reads back as itself |
| Api.RequestHeader | src/user/api/request/header.c:26-42 | the header a client builds is exactly 12 bytes: the magic, the api version, the request type |
| Api.ErrorReplyWith | src/user/api/response/error/create.c:27-41 | 0 and the error response stored exactly when `malloc` succeeds and `response` is not null; otherwise -1 and nothing stored; as written, a successful `malloc` with a null `response` is a store through null |
| Api.RequestError | src/user/api/request/handle.c:35-75 | INVALID_DATA exactly for a null argument; INVALID_MSG_TYPE exactly for a type without a handler, which is every type but get-control; INTERNAL_ERROR exactly when the handler fails; no error exactly when the get-control handler succeeds |
| Api.RequestHandleWith | src/user/api/request/handle.c:35-75 | the handler's response with status 0 comes back exactly when no guard fails and the handler succeeds |
| Api.RequestHandleAsWritten | src/user/api/request/handle.c:35-41 | as written, the call stores through a null `response` exactly when `response` is null and `malloc` succeeds |
| Api.RequestHandle | src/user/api/request/handle.c:35-75 | the handler's response with status 0 comes back exactly when no pointer is null, the type is get-control and the handler succeeds; a null `response` gets -1 with nothing stored |
| Api.HeaderError | src/user/api/handle.c:60-93 | INVALID_DATA exactly for a null argument, a request shorter than `api_header` or a wrong magic; INVALID_VERSION exactly for a well-formed header of another version; no error exactly when the header is well-formed and of this version |
| Api.InternalHandleAsWritten | src/user/api/handle.c:60-96 | as written, the call stores through a null `response` exactly when `response` is null and `malloc` succeeds, and a handler's response comes back only for a request whose header passes the guards |
| Api.InternalHandle | src/user/api/handle.c:60-96 | the get-control handler's response with status 0 comes back exactly when the header passes the guards, the request holds a whole request header of type get-control and the handler succeeds; no other type reaches a handler; a null `response` gets -1 with nothing stored |
| Api.ApiHandle | src/user/api/handle.c:98-110 | a lock that cannot be taken gives the INTERNAL_ERROR response; a handler's response comes back only when the lock was taken and the handler succeeded |
| Api.ClientRequestDispatched | src/user/api/handle.c:60-96 | a request a client of the same version built reaches the handler table with the type it was built with, whatever follows the header |
| Api.GetControlAnswered | src/user/api/request/handle.c:29-75 | a get-control request of the same version whose handler succeeds is answered by the handler with status 0 |
| Api.OtherVersionRefused | src/user/api/handle.c:88-93 | a request built for another api version is refused with INVALID_VERSION before any dispatch |
| Api.RequestTypeReadPastEnd | src/user/api/request/handle.c:43 | as written, an 8-byte request with a valid header is dispatched on the 4 bytes after it: the memory that follows decides between the get-control handler and INVALID_MSG_TYPE; corrected, it is refused with INVALID_DATA |
| Api.WholeRequestsUnchanged | src/user/api/handle.c:68-95 | on requests that hold a whole request header, the corrected handling answers as the code as written does |
| Api.NullResponseStoredThroughAsWritten | src/user/api/handle.c:62-65 | as written, a null `response` is answered by storing the error response through it, both in `internal_unsafe_api_handle` and in `api_request_handle`; corrected, the answer is -1 with nothing stored |
| Api.ApiServer.constructor | src/user/api/handle.c:98-110 | the lock starts free |
| Api.ApiServer.Handle | src/user/api/handle.c:98-110 | INTERNAL_ERROR when the lock cannot be taken, otherwise the guarded handling; the lock is free again afterwards |
| ParseState.State.constructor | src/user/args/helper.c:23-29 | a fresh state asks for no exit, with code 0 |
| ParseState.IsExitSet | src/user/args/helper.c:52-57 | a null state reads as "no exit"; otherwise the stored flag |
| ParseState.GetCode | src/user/args/state.c:79-84 | a null state reads as code 0; otherwise the stored code |
| ParseState.Init | src/user/args/helper.c:23-29 | afterwards the state reads as no exit with code 0, a null state included |
| ParseState.SetExitError | src/user/args/helper.c:31-37 | a non-null state then asks for an exit with the given code; a null one still reads as no exit, code 0 |
| ParseState.SetExitNoError | src/user/args/helper.c:39-45 | a non-null state then asks for an exit with code 0 |
| ParseState.SetNoExit | src/user/args/helper.c:47-50 | the state reads as no exit with code 0, as after `init` |
| ArgCommon.Common.constructor | src/user/arg/common.c:26-33 | no help, usage or version request |
| ArgCommon.IsUsageHelpOrVersionSet | src/user/arg/common.c:59-64 | 1 exactly when the struct is not null and one of help, usage or version was requested, 0 otherwise |
| ArgCommon.Init | src/user/arg/common.c:26-33 | all three requests cleared, so the predicate answers 0 |
| ArgCommon.ShowHelp | src/user/arg/common.c:35-41 | with both pointers non-null, help is requested, the other flags kept, and the parse state asks for an exit with code 0; with either null, nothing changes |
| ArgCommon.ShowUsage | src/user/arg/common.c:43-49 | the same for usage |
| ArgCommon.ShowVersion | src/user/arg/common.c:51-57 | the same for version |
| ArgControl.ClearOption | src/user/arg/control.c:47-64 | exactly the letters X, Y and Z name a clear option, for the uid, pid and ppid lists |
| ArgControl.Step | src/user/arg/control.c:233-345 | every option step keeps each list length within its array |
| ArgControl.Run | src/user/arg/control.c:362-364 | a sequence of parser calls keeps each list length within its array, and leaves the exit fields as no exit or an exit with 0 or -1 |
| ArgControl.Outcome | src/user/arg/control.c:347-369 | the value handed back keeps each list length within its array, and either asks for no exit with status 0 or for an exit with status 0 or -1 |
| ArgControl.InfoOptionsExitCleanly | src/user/arg/control.c:244-257 | version, help and usage ask for an exit with status 0 and leave the control struct alone |
| ArgControl.ArgumentsAndErrorsFail | src/user/arg/control.c:333-336 | a positional argument or an argp error asks for an exit with status -1 and leaves the struct alone |
| ArgControl.ModeOptionMeaning | src/user/arg/control.c:144-166 | a prefix of "ignore" sets the mode to IGNORE, any other prefix of "capture" to CAPTURE, and any other word leaves the struct and asks for an exit with -1 |
| ArgControl.ListOptionStatus | src/user/arg/control.c:168-222 | an accepted list stores its length and its values in order and keeps the parse state; a refused one keeps the length and asks for an exit with -1 |
| ArgControl.ClearOptionMeaning | src/user/arg/control.c:224-231 | a clear option empties its list and zeroes every slot, and keeps the parse state |
| ArgControl.RunKeepsUnnamedMode | src/user/arg/control.c:233-345 | a mode that no option names ends as it was in the initial value |
| ArgControl.OutcomeKeepsUnnamedMode | src/user/arg/control.c:347-369 | a mode that no option names comes back as the initial value's mode, or NOT_SET for a null initial value |
| ArgControl.ExitSticks | src/user/arg/control.c:233-345 | once an exit is asked for, no later option call takes it back |
| ArgControl.WithParseState.constructor | src/user/arg/control.c:41 | a zeroed parse state and control struct |
| ArgControl.WithParseState.CopyFrom | src/user/arg/control.c:120-123 | `memcpy` of the whole struct: every field becomes the source's |
| ArgControl.Globals.constructor | src/user/arg/control.c:41-42 | the static parse target and initial value, each with arrays of its own |
| ArgControl.SetGlobalInitialValue | src/user/arg/control.c:112-118 | the static initial value becomes the all-zero struct for NULL, otherwise a copy of the given one |
| ArgControl.InitializeArgWithParseState | src/user/arg/control.c:125-131 | the static target becomes the initial value with a cleared parse state |
| ArgControl.ParseMode | src/user/arg/control.c:144-166 | a recognised word sets the mode; any other word asks for an exit with -1 and changes nothing else |
| ArgControl.ParseIntList | src/user/arg/control.c:168-222 | the struct becomes the list parse's result, and a refused list also asks for an exit with -1 |
| ArgControl.ClearIdList | src/user/arg/control.c:224-231 | the list's length becomes 0 and its slots all 0; nothing else changes |
| ArgControl.ParseOpt | src/user/arg/control.c:233-345 | the static target becomes the result of one option step, and the call answers 0 |
| ArgControl.RunEvents | src/user/arg/control.c:233-345 | the static target becomes the result of the option steps in order |
| ArgControl.Parse | src/user/arg/control.c:347-369 | -1 for a NULL target with nothing changed; otherwise 0, with the target holding the initial value after every option step in order |
| LogOptions.Nuls | src/user/args/ameba.c:286-287 | `n` NUL characters, as `memset` leaves them |
| LogOptions.ZeroLogArgs | src/user/arg/ameba.c:104-110 | the all-zero struct has a PATH_MAX-byte directory buffer |
| LogOptions.StrNCpyText | src/user/arg/ameba.c:179 | `strncpy` with count `n`: the first `n` characters are the source's, NUL-padded past its end, and the rest of the buffer is kept |
| LogOptions.DirCheckAsWritten | src/user/arg/ameba.c:159-177 | as written, a directory passes exactly when it is non-empty, absolute and at most PATH_MAX bytes long |
| LogOptions.DirCheck | src/user/arg/ameba.c:173-177 | the corrected check, which the option parsers do not run: a directory passes exactly when it is non-empty, absolute and shorter than PATH_MAX, so room is left for the NUL; every such directory passes the check as written too |
| LogOptions.SetDirAsWritten | src/user/arg/ameba.c:179 | as written, the copy writes exactly the path's own characters and leaves the old buffer's tail behind them |
| LogOptions.SetDir | src/user/arg/ameba.c:179 | the corrected copy, which the option parsers do not run: the whole PATH_MAX buffer is written, the path and then NULs |
| LogOptions.SetDirReadsBack | src/user/arg/ameba.c:173-179 | after the corrected check and copy, the buffer read as a C string is the path, whatever it held before |
| LogOptions.OldLogDir | src/user/arg/ameba.c:179 | a PATH_MAX buffer holding "/var/log/ameba" |
| LogOptions.ShortPathKeepsOldTail | src/user/arg/ameba.c:179 | as written, `-o /tmp` over "/var/log/ameba" leaves the C string "/tmp/log/ameba"; the corrected copy leaves "/tmp" |
| LogOptions.FullLengthPathUnterminated | src/user/args/ameba.c:142-148 | as written, a path of exactly PATH_MAX bytes passes and fills the buffer with no NUL at all; the corrected check refuses it as too long |
| LogOptions.WholeNumber | src/user/arg/ameba.c:182-198 | a number is accepted exactly when the argument is non-empty and `strtoull` converts all of it without overflow, and then it is the converted value |
| LogOptions.SizeOf | src/user/arg/ameba.c:182-216 | an accepted size lies between 100 MiB and 10 GiB |
| LogOptions.CountOf | src/user/arg/ameba.c:218-251 | an accepted count lies between 1 and 100 |
| LogOptions.WholeNumberOfNatString | src/user/arg/ameba.c:190-198 | the decimal text of a number up to ULONG_MAX is accepted as that number, and a larger one is refused |
| LogOptions.SizeRoundTrip | src/user/arg/ameba.c:182-216 | the size option takes back exactly the decimal texts of sizes between 100 MiB and 10 GiB |
| LogOptions.CountRoundTrip | src/user/args/ameba.c:187-220 | the count option takes back exactly the decimal texts of counts between 1 and 100 |
| LogOptions.NotNumbers | src/user/arg/ameba.c:193-198 | "onehundred" and "5x" are not numbers |
| LogOptions.NegativeCountRefused | src/user/arg/ameba.c:227-244 | "-5" wraps around to a huge number and is refused |
| LogOptions.SignedAndBlankCounts | src/user/arg/ameba.c:227-250 | "+5" and " 5" are accepted as the count 5 |
| LogOptions.Step | src/user/arg/ameba.c:253-309 | every parser call keeps the directory buffer PATH_MAX bytes long |
| LogOptions.EndMeaning | src/user/arg/ameba.c:125-157 | the final check keeps the options, and the parse ends without an exit exactly when nothing asked for one and the directory is set and both numbers are in range; otherwise it asks for an exit with -1 |
| LogOptions.RefusedOptionKeepsValue | src/user/args/ameba.c:128-220 | a -o refused by the check as written (empty, relative or longer than PATH_MAX), or a refused -s or -c, asks for an exit with -1 and leaves the options as they were |
| LogOptions.DirOptionMeaning | src/user/arg/ameba.c:159-180 | as written, an accepted -o keeps both numbers and the parse state, and the directory then reads as the argument followed by the C string the old buffer held behind it; it reads as the argument alone exactly when the argument fills the buffer or the old buffer had a NUL right behind it |
| LogOptions.LogFields.constructor | src/user/arg/ameba.c:51 | a zeroed struct, as a static variable starts |
| LogOptions.LogFields.CopyFrom | src/user/args/ameba.c:89 | `memcpy` of the whole struct: every field becomes the source's |
| LogOptions.LogFields.Zero | src/user/args/ameba.c:286-287 | `memset` of the whole struct leaves the all-zero value |
| LogOptions.StrNCpy | src/user/arg/ameba.c:179 | the buffer becomes the `strncpy` text of its old contents |
| LogOptions.ParseLogDirPath | src/user/args/ameba.c:128-149 | as written: a directory the check accepts (up to PATH_MAX bytes) has only its own characters copied over the front of the buffer, and the parse state is kept; a refused one asks for an exit with -1 and leaves the options |
| LogOptions.ParseLogFileSizeBytes | src/user/arg/ameba.c:182-216 | an accepted size is stored and the parse state kept; a refused one asks for an exit with -1 and leaves the options |
| LogOptions.ParseLogFileCount | src/user/arg/ameba.c:218-251 | an accepted count is stored and the parse state kept; a refused one asks for an exit with -1 and leaves the options |
| LogOptions.ValidateLog | src/user/args/ameba.c:94-126 | options that pass the final check keep the parse state; any others ask for an exit with -1 |
| LogOptions.ParseLogOpt | src/user/arg/ameba.c:253-309 | the parse state and options become those of one shared option step |
| ArgAmeba.ZeroAmeba | src/user/arg/ameba.c:104-110 | the all-zero `arg_ameba` has a PATH_MAX-byte directory buffer |
| ArgAmeba.AmebaStep | src/user/arg/ameba.c:253-309 | every parser call keeps the directory buffer PATH_MAX bytes long |
| ArgAmeba.AmebaRun | src/user/arg/ameba.c:327 | a sequence of parser calls keeps the directory buffer PATH_MAX bytes long |
| ArgAmeba.AmebaOutcome | src/user/arg/ameba.c:311-334 | the value handed back keeps the directory buffer PATH_MAX bytes long |
| ArgAmeba.StdoutOptionMeaning | src/user/arg/ameba.c:259-261 | -t raises the stdout flag, is never refused, and leaves the log options and the parse state alone |
| ArgAmeba.RunKeepsStdout | src/user/arg/ameba.c:253-309 | without a -t, the stdout flag ends as the initial value had it |
| ArgAmeba.RunRaisesStdout | src/user/arg/ameba.c:259-261 | any -t after the last ARGP_KEY_INIT leaves the flag raised |
| ArgAmeba.RaisedStdoutStays | src/user/arg/ameba.c:253-309 | a raised flag stays raised while no ARGP_KEY_INIT comes |
| ArgAmeba.CleanExitMeansValid | src/user/arg/ameba.c:125-157 | the parse ends without an exit exactly when no call asked for one and the log options pass the final check; the final check changes no option |
| ArgAmeba.StdoutAloneFails | src/user/arg/ameba.c:125-132 | `-t` alone names no log directory, so the parse ends with exit status -1 and the flag raised |
| ArgAmeba.HelpWithoutDirEndsInError | src/user/arg/ameba.c:291-294 | help without a log directory asks for a clean exit, and the final check then turns its status into -1 |
| ArgAmeba.AmebaFields.constructor | src/user/arg/ameba.c:51 | a zeroed `arg_ameba` |
| ArgAmeba.AmebaFields.CopyFrom | src/user/arg/ameba.c:109 | `memcpy` of the whole struct: every field becomes the source's |
| ArgAmeba.AmebaFields.Zero | src/user/arg/ameba.c:107 | `memset` of the whole struct leaves the all-zero value |
| ArgAmeba.WithParseState.constructor | src/user/arg/ameba.c:50 | a zeroed parse state and `arg_ameba` |
| ArgAmeba.WithParseState.CopyFrom | src/user/arg/ameba.c:112-115 | `memcpy` of the whole struct: every field becomes the source's |
| ArgAmeba.Globals.constructor | src/user/arg/ameba.c:50-51 | the static parse target and initial value, each with a buffer of its own |
| ArgAmeba.SetGlobalInitialValue | src/user/arg/ameba.c:104-110 | the static initial value becomes the all-zero struct for NULL, otherwise a copy of the given one |
| ArgAmeba.InitializeArgWithParseState | src/user/arg/ameba.c:117-123 | the static target becomes the initial value with a cleared parse state |
| ArgAmeba.ParseOpt | src/user/arg/ameba.c:253-309 | the static target becomes the result of one option step, and the call answers 0 |
| ArgAmeba.RunEvents | src/user/arg/ameba.c:253-309 | the static target becomes the result of the option steps in order |
| ArgAmeba.Parse | src/user/arg/ameba.c:311-334 | -1 for a NULL target with nothing changed; otherwise 0, with the target holding the initial value after every option step in order and the final check |
| ArgsAmeba.Run | src/user/args/ameba.c:292 | a sequence of parser calls keeps the directory buffer PATH_MAX bytes long |
| ArgsAmeba.Outcome | src/user/args/ameba.c:276-296 | the value handed back keeps the directory buffer PATH_MAX bytes long |
| ArgsAmeba.CleanExitMeansValid | src/user/args/ameba.c:94-126 | the parse ends without an exit exactly when no call asked for one and the options pass the final check; the final check changes no option |
| ArgsAmeba.ExitSticks | src/user/args/ameba.c:222-274 | once an exit is asked for, no later call other than ARGP_KEY_INIT takes it back |
| ArgsAmeba.SecondDirKeepsOldTail | src/user/args/ameba.c:142-148 | as written, `-o /var/log/ameba` followed by `-o /tmp` leaves the directory reading "/tmp/log/ameba" |
| ArgsAmeba.ThreeOptionsParse | src/user/args/ameba.c:128-220 | with no initial value, a directory, a size and a count that each pass their check give a clean parse holding exactly those three values |
| ArgsAmeba.HelpWithoutDirEndsInError | src/user/args/ameba.c:245-248 | help without a log directory asks for a clean exit, and the final check then turns its status into -1 |
| ArgsAmeba.WithParseState.constructor | src/user/args/ameba.c:36 | a zeroed parse state and options |
| ArgsAmeba.WithParseState.CopyFrom | src/user/args/ameba.c:295 | `memcpy` of the whole struct: every field becomes the source's |
| ArgsAmeba.Globals.constructor | src/user/args/ameba.c:36-37 | the static parse target and initial value, each with a buffer of its own |
| ArgsAmeba.InitAmebaInput | src/user/args/ameba.c:86-92 | the static target becomes the initial value with a cleared parse state |
| ArgsAmeba.ParseOpt | src/user/args/ameba.c:222-274 | the static target becomes the result of one option step, and the call answers 0 |
| ArgsAmeba.RunEvents | src/user/args/ameba.c:222-274 | the static target becomes the result of the option steps in order |
| ArgsAmeba.Parse | src/user/args/ameba.c:276-296 | nothing changes for a NULL target; otherwise the target holds the initial value, or zeros for NULL, after every option step in order and the final check |
| OutputArgs.ZeroOutput | src/user/args/user.c:176-181 | the zeroed struct has no output kind and buffers of PATH_MAX and INET6_ADDRSTRLEN bytes |
| OutputArgs.WriteCString | src/user/args/user.c:52 | `snprintf("%s")` into a buffer keeps its size |
| OutputArgs.WriteCStringReadsBack | src/user/args/user.c:52-58 | a path shorter than the buffer reads back whole as a C string |
| OutputArgs.WriteCStringTruncates | src/user/args/user.c:52-56 | a longer path is cut to the buffer's size less one and is still NUL-terminated |
| OutputArgs.PortOf | src/user/args/user.c:111-123 | an accepted port is the value `strtol` converts from the whole argument without overflow, between 1 and 65535 |
| OutputArgs.PortRoundTrip | src/user/args/user.c:99-124 | the port option takes back exactly the decimal texts of 1..65535 |
| OutputArgs.PortRefusesText | src/user/args/user.c:113-119 | "", "http" and "80x" are not ports |
| OutputArgs.PortSkipsBlank | src/user/args/user.c:113-119 | " 80" is port 80: the leading blank is skipped |
| OutputArgs.UserInput.constructor | src/user/args/user.c:178 | a zeroed struct |
| OutputArgs.UserInput.Zero | src/user/args/user.c:178 | `memset` of the whole struct leaves the all-zero value |
| OutputArgs.SnprintfString | src/user/args/user.c:52 | the buffer becomes the `%s` text of the argument, and the answer is the argument's whole length whether or not it fit |
| UserArgs.FileStep | src/user/args/user.c:40-59 | every file option keeps the buffers their sizes |
| UserArgs.IpStep | src/user/args/user.c:61-97 | every address option keeps the buffers their sizes |
| UserArgs.PortStep | src/user/args/user.c:99-124 | every port option keeps the buffers their sizes |
| UserArgs.Step | src/user/args/user.c:126-160 | every parser call keeps the buffers their sizes |
| UserArgs.Run | src/user/args/user.c:187 | a sequence of parser calls keeps the buffers their sizes |
| UserArgs.InitialOutput | src/user/args/user.c:176-181 | the parse starts with no output kind |
| UserArgs.Outcome | src/user/args/user.c:183-190 | the struct handed back keeps the buffers their sizes |
| UserArgs.IpChoice | src/user/args/user.c:61-97 | while no file is chosen, an address is accepted exactly when it is IPv4 or IPv6; IPv4 wins and is tagged 4, otherwise IPv6 is tagged 6, and either sets network output; a refused address changes nothing |
| UserArgs.FileExcludesNet | src/user/args/user.c:61-104 | once the output kind is a file, a run of calls holding an address or port option answers non-zero |
| UserArgs.NetExcludesFile | src/user/args/user.c:40-46 | once the output kind is the network, a run of calls holding a file option answers non-zero |
| UserArgs.MixedKindsRefused | src/user/args/user.c:40-104 | calls that name both a file and an address or port, in either order, never parse |
| UserArgs.OneOutputKind | src/user/args/user.c:30-38 | a parse that answers 0 has chosen an output kind, and no parse naming both kinds answers 0 |
| UserArgs.FileOptionParses | src/user/args/user.c:40-59 | a file option alone, shorter than PATH_MAX, gives file output to that path |
| UserArgs.AddressAndPortParse | src/user/args/user.c:61-124 | an address and then a port give network output to the address's canonical text and that port |
| UserArgs.NoOutputRefused | src/user/args/user.c:30-38 | with no output option the final check refuses the parse |
| UserArgs.InitUserInput | src/user/args/user.c:176-181 | the struct becomes the zeroed value with no output kind |
| UserArgs.ParseArgOutputFile | src/user/args/user.c:40-59 | the struct and the answer are those of one file step |
| UserArgs.ParseIp | src/user/args/user.c:61-97 | the struct and the answer are those of one address step |
| UserArgs.ParsePort | src/user/args/user.c:99-124 | the struct and the answer are those of one port step |
| UserArgs.ParseOpt | src/user/args/user.c:126-160 | the struct and the answer are those of one parser call |
| UserArgs.RunEvents | src/user/args/user.c:187 | the struct and the answer are those of the calls in order, up to the first that ends the program |
| UserArgs.MustParseUserInput | src/user/args/user.c:183-190 | the struct and the answer are those of the zeroed start, the calls in order and the final check |
| CUserArgs.DefaultPathShape | src/c/user/args/user.c:75 | the default path is 26 characters with no NUL, so it fits the zeroed buffer with its terminator |
| CUserArgs.InitialOutput | src/c/user/args/user.c:71-76 | the reset struct has file output and keeps the buffers their sizes |
| CUserArgs.FileStep | src/c/user/args/user.c:101-120 | every file option keeps the buffers their sizes, whatever the current kind |
| CUserArgs.IpStep | src/c/user/args/user.c:122-158 | every address option keeps the buffers their sizes, whatever the current kind |
| CUserArgs.PortStep | src/c/user/args/user.c:160-185 | every port option keeps the buffers their sizes |
| CUserArgs.Step | src/c/user/args/user.c:187-218 | every parser call keeps the buffers their sizes |
| CUserArgs.Run | src/c/user/args/user.c:222 | a sequence of parser calls keeps the buffers their sizes |
| CUserArgs.Outcome | src/c/user/args/user.c:220-226 | the static struct after the parse keeps the buffers their sizes |
| CUserArgs.DefaultsAreFile | src/c/user/args/user.c:71-99 | with no option the parse succeeds with file output to /tmp/current_prov_log.json |
| CUserArgs.StepKeepsAddress | src/c/user/args/user.c:122-158 | a call keeps a chosen kind, and a network kind keeps a non-empty address |
| CUserArgs.RunKeepsAddress | src/c/user/args/user.c:187-218 | every run of calls keeps a chosen kind, and a network kind keeps a non-empty address |
| CUserArgs.NetNeedsAddressOption | src/c/user/args/user.c:160-166 | from file output, a run without an address option stays file output: a port alone never switches to the network |
| CUserArgs.ParseMeaning | src/c/user/args/user.c:78-99 | a parse succeeds exactly when no call ended it and a network output has a port in 1..65535; the address check never fails |
| CUserArgs.FileWithoutAddress | src/c/user/args/user.c:160-166 | without an address option the records never go to the network |
| CUserArgs.PortAloneRefused | src/c/user/args/user.c:160-166 | a port with no address before it is refused and changes nothing |
| CUserArgs.AddressAloneRefused | src/c/user/args/user.c:92-96 | an address with no port is refused at the end |
| CUserArgs.AddressThenPortParse | src/c/user/args/user.c:138-184 | an IPv4 address then a port give network output to that address, tagged AF_INET, and that port |
| CUserArgs.FileOptionOverridesNet | src/c/user/args/user.c:101-120 | a file option after a network choice switches back to file output that passes the final check |
| CUserArgs.InitUserInput | src/c/user/args/user.c:71-76 | the static struct becomes the reset value |
| CUserArgs.ValidateUserInput | src/c/user/args/user.c:78-99 | the answer is the final check's |
| CUserArgs.ParseArgOutputFile | src/c/user/args/user.c:101-120 | the struct and the answer are those of one file step |
| CUserArgs.ParseIp | src/c/user/args/user.c:122-158 | the struct and the answer are those of one address step |
| CUserArgs.ParsePort | src/c/user/args/user.c:160-185 | the struct and the answer are those of one port step |
| CUserArgs.ParseOpt | src/c/user/args/user.c:187-218 | the struct and the answer are those of one parser call |
| CUserArgs.RunEvents | src/c/user/args/user.c:222 | the struct and the answer are those of the calls in order, up to the first that ends the program |
| CUserArgs.MustParseUserInput | src/c/user/args/user.c:220-226 | the struct and the answer are those of the reset, the calls in order and the final check |
| Config.TrailingSpaces | src/user/config/config.c:42-44 | the count covers exactly the run of white space at the end of the string |
| Config.TrimMeaning | src/user/config/config.c:32-48 | the trimmed text is the part of the line between its leading and trailing white space, and it neither starts nor ends with white space |
| Config.TrimIdempotent | src/user/config/config.c:32-48 | trimming a trimmed line changes nothing |
| Config.TrimStrip | src/user/config/config.c:32-48 | the returned start and the index of the written NUL bound exactly the trimmed line |
| Config.PieceLength | src/user/config/config.c:84-85 | one `fgets` call reads up to and including the first newline, at most 199 characters, and never nothing |
| Config.Pieces | src/user/config/config.c:85 | every piece `fgets` returns is non-empty and fits the 200-byte buffer with its NUL |
| Config.PiecesCover | src/user/config/config.c:85 | the pieces put back together are the whole file |
| Config.ShortLineIsOnePiece | src/user/config/config.c:84-85 | a line that fits the buffer is read as one piece |
| Config.LongLineIsCut | src/user/config/config.c:84-85 | a longer line is cut after 199 characters and the rest is read as a piece of its own |
| Config.PieceTokens | src/user/config/config.c:86-94 | every token a piece contributes is non-empty and holds no blank or tab |
| Config.LineContribution | src/user/config/config.c:86-94 | a short line adds its tokens ahead of the rest, and a blank or '#' line adds none |
| Config.LongCommentContinues | src/user/config/config.c:84-88 | the first 199 characters of a long comment line add nothing, though its tail is read as a new piece |
| Config.TrailingSlashes | src/user/config/config.c:81 | the count covers exactly the run of '/' at the end of the path |
| Config.AfterLastSlash | src/user/config/config.c:81 | the index follows the last '/', and nothing after it is a '/' |
| Config.Basename | src/user/config/config.c:81 | the base name is never empty and is "/" or holds no '/' |
| Config.BasenameOfPath | src/user/config/config.c:81-82 | the base name of "dir/name" is "name" |
| Config.BasenameIgnoresTrailingSlash | src/user/config/config.c:81-82 | the base name of "dir/name/" is "name" |
| Config.BasenameOfName | src/user/config/config.c:81-82 | a bare file name is its own base name |
| Config.Capped | src/user/config/config.c:91 | at most MAX_ARGS entries are kept, a prefix of the tokens, all of them when they fit |
| Config.ConfigArgv | src/user/config/config.c:81-95 | argv[0] is the base name of the file, the rest is a prefix of the file's tokens in order, and all of them when fewer than MAX_ARGS |
| Config.StoreTokens | src/user/config/config.c:90-94 | the `strtok` loop stores the piece's tokens after the earlier ones while argv has room |
| Config.ProcessPiece | src/user/config/config.c:85-95 | one pass of the `fgets` loop leaves argv holding the capped tokens so far followed by this piece's |
| Config.ReadPieces | src/user/config/config.c:84-95 | the `fgets` loop leaves argv holding argv[0] and then the capped tokens of the whole file |
| Config.ConfigParseAsArgv | src/user/config/config.c:50-114 | the answer is 0 or -1, 0 exactly when the inputs are non-NULL, the file opens and the allocations succeed, and then argv holds the vector for that file |
| LogRotation.ScanUnsigned | src/user/record/writer/dir.c:60 | a `%3u` conversion that reads a number yields an `unsigned int` value |
| LogRotation.ScanIndex | src/user/record/writer/dir.c:60 | a name selects an index only behind the exact "ameba_log_" prefix, and the index is an `unsigned int` value |
| LogRotation.LogPath | src/user/record/writer/dir.c:77-81 | the path is the directory, a '/' and the file name, 18 characters longer than the directory for indices below 1000 |
| LogRotation.DigitsValueLeadingZeros | src/user/record/writer/dir.c:60 | zeros in front of a digit string do not change the value `%u` reads |
| LogRotation.ZerosValue | src/user/record/writer/dir.c:60 | a run of zeros reads as 0 |
| LogRotation.ZeroPadValue | src/user/record/writer/dir.c:77-81 | the three-digit `%03u` field of an index below 1000 reads back as that index |
| LogRotation.ScanUnsignedOfField | src/user/record/writer/dir.c:60 | three digits followed by anything convert to their value |
| LogRotation.ScanIndexPrefixed | src/user/record/writer/dir.c:60 | behind the exact prefix the index is what `%3u` reads |
| LogRotation.ScanIndexIgnoresTail | src/user/record/writer/dir.c:60 | whatever follows the three-digit field is ignored, so "ameba_log_1234.log" also selects 123 |
| LogRotation.ScanIndexOfLogName | src/user/record/writer/dir.c:60-81 | reading back a generated file name gives its index, for indices below 1000 |
| LogRotation.ScanIndexRefuses | src/user/record/writer/dir.c:60 | a name with another prefix, or no digit after it, selects no index |
| LogRotation.MaxIndex | src/user/record/writer/dir.c:53-71 | the maximum the `readdir` loop keeps is always below the file count |
| LogRotation.MaxIndexIsGreatest | src/user/record/writer/dir.c:53-71 | the loop keeps the greatest index below the file count that some name carries, and none when no name carries one |
| LogRotation.MaxIndexStep | src/user/record/writer/dir.c:57-71 | one more name is one more pass of the loop |
| LogRotation.ChosenIndex | src/user/record/writer/dir.c:75 | the chosen index is below the file count, or 0 when the count is 0 |
| LogRotation.ChosenIsNewest | src/user/record/writer/dir.c:62-75 | when some name carries an index, the chosen index is the newest existing one: the modulo never changes it |
| LogRotation.RotationStaysOnNewest | src/user/record/writer/dir.c:47-84 | once the chosen file exists in the directory, the next rotation chooses that same file again, so rotation never advances |
| LogRotation.EmptyDirectoryStartsAtZero | src/user/record/writer/dir.c:75 | an empty directory starts at file 000 |
| LogRotation.DirPathBufferRefusedAsWritten | src/user/record/writer/file.c:23 | the file writer refuses the PATH_MAX-byte buffer the directory writer hands it, and the corrected check accepts it |
| LogRotation.SetInitArgsStep | src/user/record/writer/dir.c:86-103 | the arguments are accepted exactly when the length is right and the directory path is non-empty and terminated within PATH_MAX; then the directory and limits are stored with the counter at 0 and the writer not initialized, and a refusal changes nothing |
| LogRotation.GenerateStep | src/user/record/writer/dir.c:47-84 | an unreadable directory fails and changes nothing; otherwise the chosen index is stored and the path is that file's, accepted exactly when it fits PATH_MAX |
| LogRotation.AddU64 | src/user/record/writer/dir.c:151 | the `unsigned long long` sum is below 2^64 and is the true sum when that fits |
| LogRotation.Record | src/user/record/writer/dir.c:156-160 | the file writer's answer is passed on |
| LogRotation.RotateWith | src/user/record/writer/dir.c:105-120 | given the file writer's answers, a rotation answers 0 or -1; 0 only when the file writer accepted the arguments and opened the file, and then the writer is initialized with the counter at 0; a failure leaves the initialized flag and the counter as they were |
| LogRotation.RotateStepAsWritten | src/user/record/writer/dir.c:105-111 | as written (the file writer refuses the PATH_MAX-byte buffer), every rotation answers -1 and leaves the initialized flag and the counter as they were |
| LogRotation.RotateStep | src/user/record/writer/dir.c:105-120 | with the corrected file-writer check, a successful rotation leaves the writer initialized with the counter at 0 |
| LogRotation.InitWith | src/user/record/writer/dir.c:122-145 | `init` succeeds only for a directory, or a missing one that was created, and only when the rotation's file-writer calls succeed; then the writer is initialized |
| LogRotation.InitStep | src/user/record/writer/dir.c:122-145 | as written, `init` answers -1 whatever the directory holds, and leaves the initialized flag as it was |
| LogRotation.WriteWith | src/user/record/writer/dir.c:147-161 | an uninitialized writer answers -2 and changes nothing; an initialized one answers -1 or the file writer's answer |
| LogRotation.WriteStep | src/user/record/writer/dir.c:147-161 | as written, a record that does not fit the budget fails with -1 and the writer stays initialized |
| LogRotation.NewestIndex | src/user/record/writer/dir.c:53-75 | the `readdir` loop computes the chosen index: the greatest index below the file count that some name carries, modulo the count, or 0 |
| LogRotation.RotationSucceeds | src/user/record/writer/dir.c:105-120 | with the corrected check, a rotation succeeds exactly when the directory is readable, the path fits and the file opens; then the writer is initialized on that file with the counter at 0 and the index one past the chosen one, and the limits are unchanged |
| LogRotation.InitNeedsDirectory | src/user/record/writer/dir.c:122-145 | a path that is not a directory, or a missing one that cannot be created, fails `init` and changes nothing |
| LogRotation.WriteNeedsInit | src/user/record/writer/dir.c:147-149 | before `init` succeeds, and after `close`, every write answers -2 and changes nothing |
| LogRotation.WritesRefusedAsWritten | src/user/record/writer/dir.c:86-149 | as written, after `set_init_args` and `init` every write answers -2 |
| LogRotation.WriteKeepsBudget | src/user/record/writer/dir.c:147-161 | when no record exceeds the budget, the byte count of the current file never exceeds it |
| LogRotation.WriteCountsBytes | src/user/record/writer/dir.c:151-160 | a write that fits adds exactly what the file writer wrote, on the same file |
| LogRotation.WriteOverBudgetRotates | src/user/record/writer/dir.c:151-160 | with the corrected file-writer check, a write that does not fit moves to the chosen file first, and the counter then holds only this write |
| LogRotation.WriteFailsWhenRotationFails | src/user/record/writer/dir.c:151-153 | a write over budget when the directory cannot be read fails with -1 |
| LogRotation.DirWriter.constructor | src/user/record/writer/dir.c:33-41 | the state starts zeroed |
| LogRotation.DirWriter.SetInitArgs | src/user/record/writer/dir.c:86-103 | the state and the answer are those of the argument step |
| LogRotation.DirWriter.GenerateLogPath | src/user/record/writer/dir.c:47-84 | the `readdir` loop leaves the state, answer and path of the path step |
| LogRotation.DirWriter.RotateAndInitFile | src/user/record/writer/dir.c:105-120 | the state and the answer are those of the rotation step, given the file writer's answers |
| LogRotation.DirWriter.Init | src/user/record/writer/dir.c:122-145 | the state and the answer are those of the `init` step, given the file writer's answers |
| LogRotation.DirWriter.Write | src/user/record/writer/dir.c:147-161 | the state and the answer are those of the write step, given the file writer's answers |
| LogRotation.DirWriter.Close | src/user/record/writer/dir.c:163-166 | the writer stops accepting writes and passes on the file writer's answer |
| SpadeRecords.HexEncodingValue | bin/transform_log_to_spade.py:398 | the hex digits left after the leading zeros are stripped read back as the 32-bit pattern of the value |
| SpadeRecords.NegativeHexFull | bin/transform_log_to_spade.py:398 | a negative value, whose top bit is set, keeps all eight hex digits |
| Records.Ntohs | src/user/jsonify.c:249 | the swapped port is still a 16-bit value |
| CStd.StrToL | src/user/arg/control.c:182 | `strtol` gives a value in the `long` range and an end within the string, and 0 when nothing converts |
| CStd.StrToLRoundTrip | src/user/arg/control.c:182 | `strtol` reads back the decimal text of every `long`, consuming all of it |
| CStd.StrToLAfterSpace | src/user/args/user.c:113 | `strtol` skips a leading blank before a number and reads the number back |
| CStd.StrToULL | src/user/arg/ameba.c:193 | `strtoull` gives a value in the `unsigned long long` range and an end within the string |
| CStd.StrToULLOfNatString | src/user/arg/ameba.c:193 | `strtoull` reads back the decimal text of every number up to ULONG_MAX and saturates with ERANGE above it, consuming all of it |
| CStd.Tokens | src/user/arg/control.c:178-207 | the tokens successive `strtok` calls return are non-empty and hold no delimiter |
| CStd.TokensOfJoin | src/user/arg/control.c:178-207 | `strtok` over a list of non-empty, delimiter-free items joined by the delimiter returns exactly those items |

## Left out

- The eBPF programs, the program entry points, signal handling, libbpf and the poll loop are
  outside this model. So are the lock directories and the `prog_op` wrappers.
- I/O is not modelled. This covers reading lines from a file, `printf`/`fprintf`, logging,
  `argp_failure` and `argp_state_help` messages, and the help text. Printed SPADE lines are kept
  as a sequence of values; exception message texts are not kept.
- argp's own scanning of `argv` is not modelled. The parsers receive the sequence of
  `(key, argument)` calls argp would make.
- Calls into code the model cannot see become parameters. These are `malloc`, `fopen`,
  `opendir`/`readdir`, `stat`/`mkdir`, `inet_pton`/`inet_ntop`, the underlying file writer's
  answers, the API lock and the get-control handler's status.
- Python's `str()` of a nested dict is a placeholder text, and JSON decoding of a line is a
  parameter.
- Floating point, concurrency and the atomics of the kernel side are outside this model.
- RecordJson.RecordDataToJson: requires address lengths of at most 128 bytes. The source would
  hex-dump past the 128-byte `sockaddr` array for a larger length.
- LegacyJson.WriteLegacyConnect, LegacyJson.RenderLegacyConnect, LegacyJson.LegacyRecordDataToJson, LegacyJson.LegacyRendering:
  require both address lengths to be at most 128 bytes (`LenFits`). For a larger length the older
  writer would hex-dump past the 128-byte `sockaddr` array, which is undefined behaviour in C.
- SpadeRecords.Value: a decoded JSON value is an integer, a string or an object. Booleans, `null`,
  lists and floats are not modelled. Neither is Python's `True == 1` when the transformer compares
  a field with an integer.
- LogRotation.WriteOverBudgetRotates: states the corrected rotation, the partner of the finding for
  `src/user/record/writer/dir.c:110`. As written, the same write fails with -1 (LogRotation.WriteStep).
- Buffer sizes of the JSON writers are bounded by 2^31 bytes, so the `int` counters of the C
  structs cannot overflow. `BinarySerializer` payloads are bounded by `PTRDIFF_MAX` bytes.
- ConvertData.ConvertDataToJson: each record type's body writer is modelled as a list of
  fragments, one per field. The per-field text of the record writers lives in `RecordJson`.
- user/api/types.h is not part of this model. The `Api` module assumes an 8-byte API header (the
  magic and the version) and a 12-byte request header (header plus `request_type`). The version
  check is an equality against a version parameter.
- `src/user/api/handle.c` passes `response_size` to `api_request_handle`, which takes no such
  argument. The model ignores the extra argument.
- UserArgs.Outcome: the control options of the child parser are not composed into the user
  parsers. The control parsers are modelled on their own, and `init_control_input` of the
  embedded control struct is left out of `UserArgs.InitUserInput`.
- CUserArgs.MustParseUserInput: the copy of `global_control_input` into the user struct after
  parsing is left out, for the same reason.
- ArgAmeba: the `output_stdout` field that `src/user/arg/ameba.c` writes is missing from
  `src/user/arg/ameba.h`. The model gives the struct the field the code uses.
- src/user/arg/parse_state.c is not part of this model. The second-generation parsers are taken
  to use parse-state operations that behave as those of `src/user/args/helper.c`, which
  `ParseState` models.
- Config.ConfigParseAsArgv: freeing the duplicated tokens on failure is not modelled. Nor is a
  `strdup` of a token failing, which the source does not check.
- The eBPF-side clone-flag classification and the UBSI kill check are outside this model. They
  exist only inside the kernel helpers.

## Findings

| source | as written | input that shows it | evidently intended | confidence | as-written member | corrected member |
|---|---|---|---|---|---|---|
| src/user/helper/ring_buffer.c:117-140 | `peek` and `discard` check `len` against the free space, not against the bytes stored | `discard(1)` on an empty ring with 8 usable bytes is granted, and the ring then looks full | grant only when `len` bytes are stored | not executed | RingBuffer.DiscardOnEmptyRing | RingBuffer.DiscardStoredOnEmptyRing |
| src/user/arg/ameba.c:173-179 | the log directory is copied with `strnlen` bytes and no terminator, and a path of PATH_MAX bytes passes the check | `-o /tmp` over the initial "/var/log/ameba" reads back as "/tmp/log/ameba" | a NUL-terminated copy, and paths of PATH_MAX bytes refused | not executed | LogOptions.ShortPathKeepsOldTail | LogOptions.SetDirReadsBack |
| src/user/args/ameba.c:142-148 | the first-generation parser has the same check and copy | `-o /var/log/ameba -o /tmp` leaves the directory reading "/tmp/log/ameba" | a NUL-terminated copy, and paths of PATH_MAX bytes refused | not executed | ArgsAmeba.SecondDirKeepsOldTail | LogOptions.SetDirReadsBack |
| src/user/jsonify/control.c:44-55 | an id list is rendered into a 64-byte `list_str` | ten ids of 32767 render as 70 characters | a buffer that holds the longest list | not executed | ControlJson.ListStrOverflowsAsWritten | ControlJson.ListTextFits |
| src/user/convert_data.c:72 | only the overflow flag decides failure, and a one-byte destination never sets it | `dst_len` 1 with a valid record answers 0, and the buffer holds no JSON | ERR_DST_INSUFFICIENT when the object does not fit | not executed | ConvertData.EmptyDestinationAcceptedAsWritten | ConvertData.ConvertSucceeds |
| src/user/jsonify/types.c:48-57 | the version text is formatted into 13 bytes | version 65535.255.255 prints as "65535.255.25", the same text as 65535.255.250 | a buffer that holds "65535.255.255" and its NUL | not executed | JsonTypes.TruncatedVersionCollides | JsonTypes.VersionTextFitsWhole |
| src/user/record/writer/dir.c:110 | the directory writer hands the file writer a PATH_MAX-byte buffer, which `file.c` refuses because its length is not below PATH_MAX | every rotation, so `init` always fails and every write answers -2 | the file writer accepts the PATH_MAX-byte path buffer | not executed | LogRotation.RotateStepAsWritten | LogRotation.RotationSucceeds |
| src/user/api/handle.c:68 | the request is checked against the 8-byte API header, then `request_type` is read at offset 8 | an 8-byte request with a valid header is dispatched on the 4 bytes after it | requests shorter than the request header refused as invalid data | not executed | Api.RequestTypeReadPastEnd | Api.ClientRequestDispatched |
| src/user/api/handle.c:62-65 | a null `response` is answered by storing an error response through it; `src/user/api/request/handle.c:37-40` does the same | `response` NULL with `malloc` succeeding | answer without storing through the null pointer | not executed | Api.NullResponseStoredThroughAsWritten | Api.ErrorReplyWith |
