/**
 * The JSON rendering of the control settings (src/user/jsonify/control.c): each mode and the lock
 * by name, and each id list as a JSON array of its first `len` slots, in a fixed field order.
 */
module ControlJson {
  import opened Decimal
  import opened CStd
  import opened BoundedText
  import opened JsonText
  import opened StrJson
  import opened JsonCore
  import opened Control

  /** The name of a trace mode: "ignore", "capture", or "unknown" for any other value. */
  function TraceModeName(t: int): (r: string)
    ensures r == "ignore" <==> t == IGNORE
    ensures r == "capture" <==> t == CAPTURE
    ensures r == "unknown" <==> t != IGNORE && t != CAPTURE
  {
    if t == IGNORE then "ignore" else if t == CAPTURE then "capture" else "unknown"
  }

  /** The name of a lock state: "free", "taken", or "unknown" for any other value. */
  function LockName(t: int): (r: string)
    ensures r == "free" <==> t == FREE
    ensures r == "taken" <==> t == TAKEN
    ensures r == "unknown" <==> t != FREE && t != TAKEN
  {
    if t == FREE then "free" else if t == TAKEN then "taken" else "unknown"
  }

  // ---------------------------------------------------------------------------------------------
  // The id list

  predicate Int32s(xs: seq<int>)
  {
    forall k | 0 <= k < |xs| :: INT_MIN <= xs[k] <= INT_MAX
  }

  /** The ids `write_int_list` prints: the first `len` slots, none for a negative length. */
  function ListItems(slots: seq<int>, len: int): (xs: seq<int>)
    requires len <= |slots|
    ensures |xs| == if len < 0 then 0 else len
  {
    if len < 0 then [] else slots[..len]
  }

  /** The `i`-th `sprintf` of the loop, on the renderings `rs`: the id, then ", " unless it is the last. */
  function ItemText(rs: seq<string>, i: nat): string
    requires i < |rs|
  {
    rs[i] + if i < |rs| - 1 then ", " else ""
  }

  /** What the loop has printed after its first `n` rounds. */
  function ItemsText(rs: seq<string>, n: nat): string
    requires n <= |rs|
  {
    if n == 0 then [] else ItemsText(rs, n - 1) + ItemText(rs, n - 1)
  }

  /** The whole list text: "[", the `%d` renderings separated by ", ", "]". */
  function IntListText(xs: seq<int>): string
  {
    "[" + ItemsText(Renderings(xs), |xs|) + "]"
  }

  /** The list text without its brackets. */
  function ListBody(t: string): string
    requires |t| >= 2
  {
    t[1..|t| - 1]
  }

  /** With no empty rendering, nothing is printed only for no items. */
  lemma ItemsTextEmpty(rs: seq<string>)
    requires forall k | 0 <= k < |rs| :: rs[k] != []
    ensures ItemsText(rs, |rs|) == [] <==> rs == []
  {
    if rs != [] {
      assert |ItemText(rs, |rs| - 1)| >= |rs[|rs| - 1]| >= 1;
    }
  }

  /** The text of an empty list is "[]", and only an empty list has it. */
  lemma IntListTextEmpty(xs: seq<int>)
    ensures IntListText(xs) == "[]" <==> xs == []
  {
    var body := ItemsText(Renderings(xs), |xs|);
    ItemsTextEmpty(Renderings(xs));
    assert |IntListText(xs)| == 2 + |body|;
    if body == [] {
      assert IntListText(xs) == "[" + [] + "]";
    }
  }

  /** An `int` prints in at most 11 characters. */
  lemma IntWidth(v: int)
    requires INT_MIN <= v <= INT_MAX
    ensures |IntToString(v)| <= 11
  {
    assert Pow10(10) == 10_000_000_000;
    NatToStringWidth(if v < 0 then -v else v, 10);
  }

  /** Each round prints at most 13 characters when each rendering has at most 11. */
  lemma {:induction false} ItemsTextWidth(rs: seq<string>, n: nat)
    requires n <= |rs| && forall k | 0 <= k < |rs| :: |rs[k]| <= 11
    ensures |ItemsText(rs, n)| <= 13 * n
  {
    if n > 0 {
      ItemsTextWidth(rs, n - 1);
    }
  }

  /** The text printed so far never outgrows the whole text. */
  lemma {:induction false} ItemsTextGrows(rs: seq<string>, n: nat, m: nat)
    requires n <= m <= |rs|
    ensures |ItemsText(rs, n)| <= |ItemsText(rs, m)|
    decreases m - n
  {
    if n < m {
      ItemsTextGrows(rs, n, m - 1);
    }
  }

  /** A rendered number holds a '-' and digits only: no NUL and no comma. */
  lemma IntTextChars(v: int)
    ensures forall i | 0 <= i < |IntToString(v)| :: IntToString(v)[i] != '\0' && IntToString(v)[i] != ','
  {
    var r := IntToString(v);
    if v < 0 {
      assert AllDigits(r[1..]);
      assert forall i | 1 <= i < |r| :: r[i] == r[1..][i - 1];
    } else {
      assert AllDigits(r);
    }
  }

  /** No round prints a NUL when no rendering holds one, so the text is one C string. */
  lemma {:induction false} ItemsTextNoNul(rs: seq<string>, n: nat)
    requires n <= |rs| && forall k | 0 <= k < |rs| :: NoNul(rs[k])
    ensures NoNul(ItemsText(rs, n))
  {
    if n > 0 {
      ItemsTextNoNul(rs, n - 1);
      var a, b := ItemsText(rs, n - 1), ItemText(rs, n - 1);
      assert NoNul(b) by {
        assert NoNul(rs[n - 1]);
        assert forall i | 0 <= i < |b| :: b[i] == if i < |rs[n - 1]| then rs[n - 1][i] else b[i];
      }
      assert forall i | 0 <= i < |a + b| :: (a + b)[i] == if i < |a| then a[i] else b[i - |a|];
    }
  }

  /** The renderings of `int`s hold no NUL. */
  lemma RenderingsNoNul(xs: seq<int>)
    ensures forall k | 0 <= k < |xs| :: NoNul(Renderings(xs)[k])
  {
    forall k | 0 <= k < |xs| ensures NoNul(Renderings(xs)[k]) {
      IntTextChars(xs[k]);
    }
  }

  /** The first `n` items as `strtok` would cut them at the commas: each after the first keeps its leading blank. */
  function Spaced(rs: seq<string>, n: nat): (ts: seq<string>)
    requires n <= |rs|
    ensures |ts| == n
    ensures forall k | 0 <= k < n :: ts[k] == (if k == 0 then "" else " ") + rs[k]
  {
    seq(n, k requires 0 <= k < n => (if k == 0 then "" else " ") + rs[k])
  }

  /** One more item joins with a comma. */
  lemma SpacedSnoc(rs: seq<string>, n: nat)
    requires 1 < n <= |rs|
    ensures JoinWith(Spaced(rs, n), ',') == JoinWith(Spaced(rs, n - 1), ',') + ", " + rs[n - 1]
  {
    var ts := Spaced(rs, n - 1);
    assert Spaced(rs, n) == ts + [" " + rs[n - 1]];
    JoinWithSnoc(ts, " " + rs[n - 1], ',');
    assert [','] + (" " + rs[n - 1]) == ", " + rs[n - 1];
  }

  /** The printed items are the spaced renderings joined at commas (plus the pending ", " mid-way). */
  lemma {:induction false} ItemsTextJoin(rs: seq<string>, n: nat)
    requires 0 < n <= |rs|
    ensures ItemsText(rs, n) == JoinWith(Spaced(rs, n), ',') + (if n < |rs| then ", " else "")
  {
    if n == 1 {
      assert "" + rs[0] == rs[0];
      assert Spaced(rs, 1) == [rs[0]];
      assert ItemsText(rs, 1) == [] + ItemText(rs, 0);
    } else {
      ItemsTextJoin(rs, n - 1);
      SpacedSnoc(rs, n);
      var j := JoinWith(Spaced(rs, n - 1), ',');
      var tail := if n < |rs| then ", " else "";
      assert ItemsText(rs, n) == (j + ", ") + (rs[n - 1] + tail);
      assert (j + ", ") + (rs[n - 1] + tail) == (j + ", " + rs[n - 1]) + tail;
    }
  }

  /** The items of a list every token of which was accepted. */
  function AcceptedItems(xs: seq<int>): (items: seq<Item>)
    ensures |items| == |xs| && forall k | 0 <= k < |xs| :: items[k] == Item(true, xs[k])
  {
    seq(|xs|, k requires 0 <= k < |xs| => Item(true, xs[k]))
  }

  /** The spaced renderings of non-negative `int`s are each read as a valid item of that value. */
  lemma SpacedItems(xs: seq<int>)
    requires forall k | 0 <= k < |xs| :: 0 <= xs[k] <= INT_MAX
    ensures ItemsOf(Spaced(Renderings(xs), |xs|)) == AcceptedItems(xs)
  {
    var ts := Spaced(Renderings(xs), |xs|);
    forall k | 0 <= k < |xs|
      ensures ItemOf(ts[k]) == Item(true, xs[k])
    {
      if k == 0 {
        StrToLRoundTrip(xs[k]);
      } else {
        StrToLAfterSpace(xs[k]);
      }
    }
  }

  /** A list every token of which was accepted, within the slots, is stored whole. */
  lemma AcceptedItemsParse(xs: seq<int>)
    requires |xs| <= MAX_LIST_ITEMS
    ensures ParseItems(AcceptedItems(xs), MAX_LIST_ITEMS) == ListParse(xs, true)
  {
    ParseItemsOk(AcceptedItems(xs), MAX_LIST_ITEMS);
    assert Values(AcceptedItems(xs)) == xs;
  }

  /** The spaced renderings hold no comma, so `strtok` cuts the joined text back into them. */
  lemma SpacedTokens(xs: seq<int>)
    ensures Tokens(JoinWith(Spaced(Renderings(xs), |xs|), ','), {','}) == Spaced(Renderings(xs), |xs|)
  {
    var ts := Spaced(Renderings(xs), |xs|);
    forall k | 0 <= k < |ts|
      ensures ts[k] != [] && forall i | 0 <= i < |ts[k]| :: ts[k][i] != ','
    {
      var r := IntToString(xs[k]);
      IntTextChars(xs[k]);
      if k > 0 {
        assert forall i | 1 <= i < |ts[k]| :: ts[k][i] == r[i - 1];
      }
    }
    TokensOfJoin(ts, ',');
  }

  /**
   * What the JSON shows can be fed back: the text of a list of at most ten non-negative ids,
   * without its brackets, is accepted by `parse_int_list` as exactly that list.
   */
  lemma ListTextParsesBack(xs: seq<int>)
    requires |xs| <= MAX_LIST_ITEMS && forall k | 0 <= k < |xs| :: 0 <= xs[k] <= INT_MAX
    ensures ParseList(ListBody(IntListText(xs)), MAX_LIST_ITEMS) == ListParse(xs, true)
  {
    var rs := Renderings(xs);
    var body := ItemsText(rs, |xs|);
    assert ListBody(IntListText(xs)) == body;
    var ts := Spaced(rs, |xs|);
    if xs == [] {
      assert Tokens(body, {','}) == [];
    } else {
      ItemsTextJoin(rs, |xs|);
      assert body == JoinWith(ts, ',') + "";
      assert JoinWith(ts, ',') + "" == JoinWith(ts, ',');
      SpacedTokens(xs);
    }
    assert Tokens(body, {','}) == ts;
    SpacedItems(xs);
    AcceptedItemsParse(xs);
  }

  // ---------------------------------------------------------------------------------------------
  // The buffer `write_int_list` prints into

  /** The size of `list_str` as written. */
  const LIST_STR_LEN_AS_WRITTEN: nat := 64
  /** A size that holds any ten `int`s: 13 characters per round, the brackets and the NUL. */
  const LIST_STR_LEN: nat := 13 * MAX_LIST_ITEMS + 3

  /** The list text and its NUL fit in a `list_str` of `cap` characters. */
  predicate Fits(xs: seq<int>, cap: nat)
  {
    |IntListText(xs)| < cap
  }

  /** Any ten `int`s fit the corrected buffer. */
  lemma ListTextFits(xs: seq<int>)
    requires |xs| <= MAX_LIST_ITEMS && Int32s(xs)
    ensures Fits(xs, LIST_STR_LEN)
  {
    var rs := Renderings(xs);
    forall k | 0 <= k < |rs| ensures |rs[k]| <= 11 {
      IntWidth(xs[k]);
    }
    ItemsTextWidth(rs, |xs|);
  }

  /** Ten ids of 32767 (the default largest pid), every one accepted by the parsers. */
  function TenLargePids(): (xs: seq<int>)
    ensures |xs| == MAX_LIST_ITEMS && forall k | 0 <= k < |xs| :: xs[k] == 32767
  {
    seq(10, _ => 32767)
  }

  lemma {:induction false} LargePidsText(rs: seq<string>, n: nat)
    requires n < |rs| && forall k | 0 <= k < |rs| :: |rs[k]| == 5
    ensures |ItemsText(rs, n)| == 7 * n
  {
    if n > 0 {
      LargePidsText(rs, n - 1);
    }
  }

  /**
   * The 64-character `list_str` as written is too small for a list the parsers accept: ten ids of
   * 32767 print as 70 characters, so `sprintf` writes past the end of the array.
   */
  lemma ListStrOverflowsAsWritten()
    ensures |IntListText(TenLargePids())| == 70
    ensures !Fits(TenLargePids(), LIST_STR_LEN_AS_WRITTEN)
  {
    var rs := Renderings(TenLargePids());
    NatToStringWidth(32767, 5);
    NatToStringWidthAtLeast(32767, 5);
    assert forall k | 0 <= k < |rs| :: |rs[k]| == 5;
    LargePidsText(rs, 9);
    assert |ItemText(rs, 9)| == 5;
  }

  /** One `sprintf` into `buf` at `at`: the fragment and its NUL, which must fit. */
  method Sprintf(buf: array<char>, at: nat, frag: string) returns (n: nat)
    requires at + |frag| < buf.Length
    modifies buf
    ensures n == |frag|
    ensures buf[..at + n] == old(buf[..at]) + frag && buf[at + n] == '\0'
  {
    forall i | 0 <= i < |frag| {
      buf[at + i] := frag[i];
    }
    buf[at + |frag|] := '\0';
    n := |frag|;
  }

  /** After `i` rounds the buffer starts with "[" and the first `i` items, and `idx` is just past them. */
  predicate PrintedUpTo(b: seq<char>, idx: nat, rs: seq<string>, i: nat)
  {
    i <= |rs| && idx == 1 + |ItemsText(rs, i)| && idx <= |b| && b[..idx] == "[" + ItemsText(rs, i)
  }

  /** One round of the loop: the `i`-th id and its separator, printed at `idx`. */
  method PrintItem(buf: array<char>, idx: nat, ghost rs: seq<string>, i: nat, frag: string) returns (next: nat, j: nat)
    requires i < |rs| && frag == ItemText(rs, i) && 1 + |ItemsText(rs, |rs|)| < buf.Length
    requires PrintedUpTo(buf[..], idx, rs, i)
    modifies buf
    ensures j == i + 1 && PrintedUpTo(buf[..], next, rs, j)
  {
    j := i + 1;
    ItemsTextGrows(rs, i + 1, |rs|);
    ghost var before := buf[..idx];
    var n := Sprintf(buf, idx, frag);
    assert buf[..idx + n] == before + frag;
    assert ItemsText(rs, i + 1) == ItemsText(rs, i) + frag;
    next := idx + n;
  }

  /** `rs` holds the `%d` text of each of the first `len` slots. */
  predicate RendersSlots(rs: seq<string>, slots: seq<int>, len: int)
  {
    len <= |slots| && |rs| == (if len < 0 then 0 else len) && forall k | 0 <= k < |rs| :: rs[k] == IntToString(slots[k])
  }

  /** The renderings of the listed ids are the texts of the front slots. */
  lemma SlotsRendered(slots: seq<int>, len: int)
    requires len <= |slots|
    ensures RendersSlots(Renderings(ListItems(slots, len)), slots, len)
  {
    var xs := ListItems(slots, len);
    forall k | 0 <= k < |xs| ensures xs[k] == slots[k] {
    }
  }

  /** The body of the loop of `write_int_list`: the `i`-th slot's `%d` text and, unless it is the last, ", ". */
  method PrintSlot(buf: array<char>, idx: nat, slots: seq<int>, len: int, ghost rs: seq<string>, i: nat) returns (next: nat, j: nat)
    requires RendersSlots(rs, slots, len) && i < |rs|
    requires 1 + |ItemsText(rs, |rs|)| < buf.Length && PrintedUpTo(buf[..], idx, rs, i)
    modifies buf
    ensures j == i + 1 && PrintedUpTo(buf[..], next, rs, j)
  {
    next, j := PrintItem(buf, idx, rs, i, IntToString(slots[i]) + (if i < len - 1 then ", " else ""));
  }

  /** The loop of `write_int_list`: one `sprintf` per id at the advancing index, after the "[". */
  method PrintItems(buf: array<char>, slots: seq<int>, len: int, ghost rs: seq<string>) returns (idx: nat)
    requires RendersSlots(rs, slots, len)
    requires 1 + |ItemsText(rs, |rs|)| < buf.Length && PrintedUpTo(buf[..], 1, rs, 0)
    modifies buf
    ensures PrintedUpTo(buf[..], idx, rs, |rs|)
  {
    var n: nat := if len < 0 then 0 else len;
    idx := 1;
    var i: nat := 0;
    while i < n
      invariant i <= n
      invariant PrintedUpTo(buf[..], idx, rs, i)
    {
      idx, i := PrintSlot(buf, idx, slots, len, rs, i);
    }
  }

  lemma StartPrinted(b: seq<char>, rs: seq<string>)
    requires 1 <= |b| && b[..1] == "["
    ensures PrintedUpTo(b, 1, rs, 0)
  {
    assert "[" + ItemsText(rs, 0) == "[";
  }

  /** The closing "]" and its NUL after the items. */
  method CloseList(buf: array<char>, idx: nat, ghost rs: seq<string>) returns (end: nat)
    requires PrintedUpTo(buf[..], idx, rs, |rs|) && idx + 1 < buf.Length
    modifies buf
    ensures end == idx + 1 && buf[..end] == "[" + ItemsText(rs, |rs|) + "]" && buf[end] == '\0'
  {
    ghost var before := buf[..idx];
    var n := Sprintf(buf, idx, "]");
    assert buf[..idx + n] == before + "]";
    end := idx + n;
  }

  /**
   * `write_int_list`'s formatting: "[", the loop, then "]", into a fresh `list_str` of `cap`
   * characters, which must hold the text.
   */
  method FormatIntList(slots: seq<int>, len: int, cap: nat) returns (buf: array<char>, idx: nat)
    requires len <= |slots| && Fits(ListItems(slots, len), cap)
    ensures fresh(buf) && buf.Length == cap && idx < cap
    ensures buf[..idx] == IntListText(ListItems(slots, len)) && buf[idx] == '\0'
  {
    ghost var rs := Renderings(ListItems(slots, len));
    buf := new char[cap];
    var n := Sprintf(buf, 0, "[");
    StartPrinted(buf[..], rs);
    SlotsRendered(slots, len);
    idx := PrintItems(buf, slots, len, rs);
    idx := CloseList(buf, idx, rs);
  }

  // ---------------------------------------------------------------------------------------------
  // The writers

  lemma ControlKeys()
    ensures NoNul("global_mode") && NoNul("lock") && NoNul("netio_mode") && NoNul("pid_mode")
    ensures NoNul("ppid_mode") && NoNul("uid_mode") && NoNul("pids") && NoNul("ppids") && NoNul("uids")
    ensures NoNul("ignore") && NoNul("capture") && NoNul("free") && NoNul("taken") && NoNul("unknown")
  {
  }

  /** `jsonify_control_write_trace_mode`: `"key":"<mode name>"`. */
  method WriteTraceMode(s: JsonBuffer, key: string, t: int) returns (total: nat)
    requires s.Valid() && NoNul(key)
    modifies s, s.buf
    ensures s.Valid() && s.buf == old(s.buf) && s.maxBufLen == old(s.maxBufLen)
    ensures s.sink == WriteField(old(s.sink), StrField(key, TraceModeName(t)))
    ensures total == FieldReturned(old(s.sink), StrField(key, TraceModeName(t)))
  {
    ControlKeys();
    var p := "";
    if t == IGNORE {
      p := "ignore";
    } else if t == CAPTURE {
      p := "capture";
    } else {
      p := "unknown";
    }
    total := s.WriteStr(key, p);
  }

  /** `jsonify_control_write_control_lock`: `"key":"<lock name>"`. */
  method WriteControlLock(s: JsonBuffer, key: string, t: int) returns (total: nat)
    requires s.Valid() && NoNul(key)
    modifies s, s.buf
    ensures s.Valid() && s.buf == old(s.buf) && s.maxBufLen == old(s.maxBufLen)
    ensures s.sink == WriteField(old(s.sink), StrField(key, LockName(t)))
    ensures total == FieldReturned(old(s.sink), StrField(key, LockName(t)))
  {
    ControlKeys();
    var p := "";
    if t == FREE {
      p := "free";
    } else if t == TAKEN {
      p := "taken";
    } else {
      p := "unknown";
    }
    total := s.WriteStr(key, p);
  }

  /** `jsonify_control_write_int_list` with a `list_str` big enough for any ten ids: `"key":[…]`. */
  method WriteIntList(s: JsonBuffer, key: string, slots: seq<int>, len: int) returns (total: nat)
    requires s.Valid() && NoNul(key) && len <= |slots| && len <= MAX_LIST_ITEMS && Int32s(slots)
    modifies s, s.buf
    ensures s.Valid() && s.buf == old(s.buf) && s.maxBufLen == old(s.maxBufLen)
    ensures s.sink == WriteField(old(s.sink), RawField(key, IntListText(ListItems(slots, len))))
    ensures total == FieldReturned(old(s.sink), RawField(key, IntListText(ListItems(slots, len))))
  {
    ghost var xs := ListItems(slots, len);
    assert Int32s(xs);
    ListTextFits(xs);
    var buf, idx := FormatIntList(slots, len, LIST_STR_LEN);
    RenderingsNoNul(xs);
    ItemsTextNoNul(Renderings(xs), |xs|);
    total := s.WriteRaw(key, buf[..idx]);
  }

  /**
   * `jsonify_control_write_int_list` as written, with its 64-character `list_str`: it can only be
   * called for lists whose text fits, which `ListStrOverflowsAsWritten` shows a parsed list need not.
   */
  method WriteIntListAsWritten(s: JsonBuffer, key: string, slots: seq<int>, len: int) returns (total: nat)
    requires s.Valid() && NoNul(key) && len <= |slots|
    requires Fits(ListItems(slots, len), LIST_STR_LEN_AS_WRITTEN)
    modifies s, s.buf
    ensures s.Valid() && s.buf == old(s.buf) && s.maxBufLen == old(s.maxBufLen)
    ensures s.sink == WriteField(old(s.sink), RawField(key, IntListText(ListItems(slots, len))))
    ensures total == FieldReturned(old(s.sink), RawField(key, IntListText(ListItems(slots, len))))
  {
    var buf, idx := FormatIntList(slots, len, LIST_STR_LEN_AS_WRITTEN);
    RenderingsNoNul(ListItems(slots, len));
    ItemsTextNoNul(Renderings(ListItems(slots, len)), |ListItems(slots, len)|);
    total := s.WriteRaw(key, buf[..idx]);
  }

  /** No length beyond its slots. */
  predicate LensFit(v: ControlValue)
  {
    v.uidsLen <= |v.uids| && v.pidsLen <= |v.pids| && v.ppidsLen <= |v.ppids|
  }

  /** What the writer needs: at most ten ids per list, within the slots, and `int` slots. */
  predicate Writable(v: ControlValue)
  {
    LensFit(v) && v.uidsLen <= MAX_LIST_ITEMS && v.pidsLen <= MAX_LIST_ITEMS && v.ppidsLen <= MAX_LIST_ITEMS
    && Int32s(v.uids) && Int32s(v.pids) && Int32s(v.ppids)
  }

  /** The global mode and the lock. */
  function GlobalFields(v: ControlValue): seq<seq<string>>
  {
    [StrField("global_mode", TraceModeName(v.globalMode))] + [StrField("lock", LockName(v.lock))]
  }

  /** The four per-subject modes, alphabetically. */
  function SubjectFields(v: ControlValue): seq<seq<string>>
  {
    [StrField("netio_mode", TraceModeName(v.netioMode))] + [StrField("pid_mode", TraceModeName(v.pidMode))]
    + [StrField("ppid_mode", TraceModeName(v.ppidMode))] + [StrField("uid_mode", TraceModeName(v.uidMode))]
  }

  /** The three id lists. */
  function ListFields(v: ControlValue): seq<seq<string>>
    requires LensFit(v)
  {
    [RawField("pids", IntListText(ListItems(v.pids, v.pidsLen)))]
    + [RawField("ppids", IntListText(ListItems(v.ppids, v.ppidsLen)))]
    + [RawField("uids", IntListText(ListItems(v.uids, v.uidsLen)))]
  }

  /** The fields `jsonify_control_write_control_input` writes, in its order. */
  function ControlFields(v: ControlValue): (fields: seq<seq<string>>)
    requires LensFit(v)
    ensures |fields| == 9
  {
    GlobalFields(v) + SubjectFields(v) + ListFields(v)
  }

  /** The global mode and the lock. */
  method WriteGlobal(s: JsonBuffer, v: ControlValue) returns (total: nat)
    requires s.Valid()
    modifies s, s.buf
    ensures s.Valid() && s.buf == old(s.buf) && s.maxBufLen == old(s.maxBufLen)
    ensures Wrote(s.sink, old(s.sink), GlobalFields(v), total)
  {
    ControlKeys();
    ghost var p0 := s.sink;
    var n1 := WriteTraceMode(s, "global_mode", v.globalMode);
    ghost var p1 := s.sink;
    var n2 := WriteControlLock(s, "lock", v.lock);
    Chain2(p0, p1, s.sink, StrField("global_mode", TraceModeName(v.globalMode)), n1,
      StrField("lock", LockName(v.lock)), n2, GlobalFields(v));
    total := n1 + n2;
  }

  /** netio_mode, pid_mode, ppid_mode, uid_mode. */
  method WriteSubjectModes(s: JsonBuffer, v: ControlValue) returns (total: nat)
    requires s.Valid()
    modifies s, s.buf
    ensures s.Valid() && s.buf == old(s.buf) && s.maxBufLen == old(s.maxBufLen)
    ensures Wrote(s.sink, old(s.sink), SubjectFields(v), total)
  {
    ControlKeys();
    ghost var p0 := s.sink;
    var n1 := WriteTraceMode(s, "netio_mode", v.netioMode);
    ghost var p1 := s.sink;
    var n2 := WriteTraceMode(s, "pid_mode", v.pidMode);
    ghost var p2 := s.sink;
    var n3 := WriteTraceMode(s, "ppid_mode", v.ppidMode);
    ghost var p3 := s.sink;
    var n4 := WriteTraceMode(s, "uid_mode", v.uidMode);
    Chain4(p0, p1, p2, p3, s.sink, StrField("netio_mode", TraceModeName(v.netioMode)), n1,
      StrField("pid_mode", TraceModeName(v.pidMode)), n2, StrField("ppid_mode", TraceModeName(v.ppidMode)), n3,
      StrField("uid_mode", TraceModeName(v.uidMode)), n4, SubjectFields(v));
    total := n1 + n2 + n3 + n4;
  }

  /** pids, ppids, uids. */
  method WriteLists(s: JsonBuffer, v: ControlValue) returns (total: nat)
    requires s.Valid() && Writable(v)
    modifies s, s.buf
    ensures s.Valid() && s.buf == old(s.buf) && s.maxBufLen == old(s.maxBufLen)
    ensures Wrote(s.sink, old(s.sink), ListFields(v), total)
  {
    ControlKeys();
    ghost var p0 := s.sink;
    var n1 := WriteIntList(s, "pids", v.pids, v.pidsLen);
    ghost var p1 := s.sink;
    var n2 := WriteIntList(s, "ppids", v.ppids, v.ppidsLen);
    ghost var p2 := s.sink;
    var n3 := WriteIntList(s, "uids", v.uids, v.uidsLen);
    Chain3(p0, p1, p2, s.sink, RawField("pids", IntListText(ListItems(v.pids, v.pidsLen))), n1,
      RawField("ppids", IntListText(ListItems(v.ppids, v.ppidsLen))), n2,
      RawField("uids", IntListText(ListItems(v.uids, v.uidsLen))), n3, ListFields(v));
    total := n1 + n2 + n3;
  }

  /**
   * `jsonify_control_write_control_input`: global_mode, lock, netio_mode, pid_mode, ppid_mode,
   * uid_mode, pids, ppids, uids, with the sum of the writers' returns.
   */
  method WriteControlInput(s: JsonBuffer, v: ControlValue) returns (total: nat)
    requires s.Valid() && Writable(v)
    modifies s, s.buf
    ensures s.Valid() && s.buf == old(s.buf) && s.maxBufLen == old(s.maxBufLen)
    ensures Wrote(s.sink, old(s.sink), ControlFields(v), total)
  {
    ghost var p0 := s.sink;
    var n1 := WriteGlobal(s, v);
    ghost var p1 := s.sink;
    var n2 := WriteSubjectModes(s, v);
    ghost var p2 := s.sink;
    var n3 := WriteLists(s, v);
    WroteAppend(p0, p1, p2, GlobalFields(v), n1, SubjectFields(v), n2);
    WroteAppend(p0, p2, s.sink, GlobalFields(v) + SubjectFields(v), n1 + n2, ListFields(v), n3);
    total := n1 + n2 + n3;
  }
}
