/**
 * The trace-control settings the user-space tools exchange with the kernel side
 * (src/common/control.h, src/common/control.c): a trace mode per subject (global, uid, pid, ppid,
 * network I/O), three id lists of at most MAX_LIST_ITEMS entries with their lengths, and a lock
 * word. The rules both generations of command-line parsers share are stated here once: the
 * prefix rule for a mode word and what the `strtok`/`strtol` loop of `parse_int_list` writes.
 */
module Control {
  import opened Wrappers
  import opened Decimal
  import opened CStd

  /** `trace_mode_t`. */
  const NOT_SET: int := 0
  const IGNORE: int := 1
  const CAPTURE: int := 2
  /** The lock states; their values are not part of this model's sources, 0 and 1 are assumed. */
  const FREE: int := 0
  const TAKEN: int := 1
  const MAX_LIST_ITEMS: nat := 10

  /** The five mode fields and the three list fields an option can name. */
  datatype ModeField = GlobalMode | UidMode | PidMode | PpidMode | NetioMode
  datatype ListField = Uids | Pids | Ppids

  /** The value of a `struct control_input` (the id arrays as sequences of their 10 slots). */
  datatype ControlValue = ControlValue(
    globalMode: int, uidMode: int, pidMode: int, ppidMode: int, netioMode: int,
    uids: seq<int>, uidsLen: int, pids: seq<int>, pidsLen: int, ppids: seq<int>, ppidsLen: int,
    lock: int)
  {
    function Mode(f: ModeField): int
    {
      match f
      case GlobalMode => globalMode
      case UidMode => uidMode
      case PidMode => pidMode
      case PpidMode => ppidMode
      case NetioMode => netioMode
    }

    function Slots(f: ListField): seq<int>
    {
      match f
      case Uids => uids
      case Pids => pids
      case Ppids => ppids
    }

    function Len(f: ListField): int
    {
      match f
      case Uids => uidsLen
      case Pids => pidsLen
      case Ppids => ppidsLen
    }

    /** The value with mode field `f` set to `m` and everything else as it was. */
    function WithMode(f: ModeField, m: int): (r: ControlValue)
      ensures r.Mode(f) == m
      ensures forall g: ModeField | g != f :: r.Mode(g) == Mode(g)
      ensures forall l: ListField :: r.Slots(l) == Slots(l) && r.Len(l) == Len(l)
      ensures r.lock == lock
    {
      match f
      case GlobalMode => this.(globalMode := m)
      case UidMode => this.(uidMode := m)
      case PidMode => this.(pidMode := m)
      case PpidMode => this.(ppidMode := m)
      case NetioMode => this.(netioMode := m)
    }

    /** The value with list `f` holding `slots` and length `n`, everything else as it was. */
    function WithList(f: ListField, slots: seq<int>, n: int): (r: ControlValue)
      ensures r.Slots(f) == slots && r.Len(f) == n
      ensures forall l: ListField | l != f :: r.Slots(l) == Slots(l) && r.Len(l) == Len(l)
      ensures forall g: ModeField :: r.Mode(g) == Mode(g)
      ensures r.lock == lock
    {
      match f
      case Uids => this.(uids := slots, uidsLen := n)
      case Pids => this.(pids := slots, pidsLen := n)
      case Ppids => this.(ppids := slots, ppidsLen := n)
    }
  }

  function Zeros(n: nat): (z: seq<int>)
    ensures |z| == n && forall i | 0 <= i < n :: z[i] == 0
  {
    seq(n, _ => 0)
  }

  /** The all-zero struct a `memset(…, 0, …)` produces: every mode NOT_SET, every list empty. */
  function ZeroValue(): (v: ControlValue)
    ensures forall f: ModeField :: v.Mode(f) == NOT_SET
    ensures forall l: ListField :: v.Slots(l) == Zeros(MAX_LIST_ITEMS) && v.Len(l) == 0
    ensures v.lock == 0
  {
    ControlValue(0, 0, 0, 0, 0, Zeros(10), 0, Zeros(10), 0, Zeros(10), 0, 0)
  }

  /** A value whose id lists have the array size of the struct. */
  predicate WellSized(v: ControlValue)
  {
    forall l: ListField :: |v.Slots(l)| == MAX_LIST_ITEMS
  }

  /** The struct as `control_set_ignore_all` leaves it: every mode IGNORE, every list zeroed and empty. */
  function IgnoreAll(v: ControlValue): (r: ControlValue)
    ensures forall f: ModeField :: r.Mode(f) == IGNORE
    ensures forall l: ListField :: r.Slots(l) == Zeros(MAX_LIST_ITEMS) && r.Len(l) == 0
    ensures r.lock == v.lock
  {
    ControlValue(IGNORE, IGNORE, IGNORE, IGNORE, IGNORE,
      Zeros(10), 0, Zeros(10), 0, Zeros(10), 0, v.lock)
  }

  /** `struct control_input` as it sits in memory: the scalar fields and three fixed arrays. */
  class ControlInput {
    var globalMode: int
    var uidMode: int
    var pidMode: int
    var ppidMode: int
    var netioMode: int
    const uids: array<int>
    var uidsLen: int
    const pids: array<int>
    var pidsLen: int
    const ppids: array<int>
    var ppidsLen: int
    var lock: int

    ghost predicate Valid()
      reads this
    {
      uids.Length == MAX_LIST_ITEMS && pids.Length == MAX_LIST_ITEMS && ppids.Length == MAX_LIST_ITEMS
      && uids != pids && uids != ppids && pids != ppids
    }

    /** The objects the struct occupies. */
    ghost function Repr(): set<object>
      reads this
    {
      {this, uids, pids, ppids}
    }

    function Array(f: ListField): (a: array<int>)
      reads this
      ensures a in Repr()
    {
      match f
      case Uids => uids
      case Pids => pids
      case Ppids => ppids
    }

    function Value(): ControlValue
      reads this, uids, pids, ppids
    {
      ControlValue(globalMode, uidMode, pidMode, ppidMode, netioMode,
        uids[..], uidsLen, pids[..], pidsLen, ppids[..], ppidsLen, lock)
    }

    /** A zero-initialised struct, as a static variable starts. */
    constructor ()
      ensures Valid() && fresh(Repr()) && Value() == ZeroValue()
    {
      globalMode, uidMode, pidMode, ppidMode, netioMode := 0, 0, 0, 0, 0;
      uids := new int[10](_ => 0);
      pids := new int[10](_ => 0);
      ppids := new int[10](_ => 0);
      uidsLen, pidsLen, ppidsLen, lock := 0, 0, 0, 0;
    }

    method SetMode(f: ModeField, m: int)
      modifies this
      ensures Value() == old(Value()).WithMode(f, m)
    {
      match f
      case GlobalMode => globalMode := m;
      case UidMode => uidMode := m;
      case PidMode => pidMode := m;
      case PpidMode => ppidMode := m;
      case NetioMode => netioMode := m;
    }

    method SetLen(f: ListField, n: int)
      modifies this
      ensures Value() == old(Value()).WithList(f, old(Value()).Slots(f), n)
    {
      match f
      case Uids => uidsLen := n;
      case Pids => pidsLen := n;
      case Ppids => ppidsLen := n;
    }

    /** `memcpy` of a whole struct: every field and every array slot of `src`. */
    method CopyFrom(src: ControlInput)
      requires Valid() && src.Valid() && Repr() !! src.Repr()
      modifies this, uids, pids, ppids
      ensures Value() == old(src.Value())
    {
      globalMode, uidMode, pidMode := src.globalMode, src.uidMode, src.pidMode;
      ppidMode, netioMode, lock := src.ppidMode, src.netioMode, src.lock;
      uidsLen, pidsLen, ppidsLen := src.uidsLen, src.pidsLen, src.ppidsLen;
      CopySlots(uids, src.uids);
      CopySlots(pids, src.pids);
      CopySlots(ppids, src.ppids);
    }

    /** `memset` of a whole struct to zero. */
    method Zero()
      requires Valid()
      modifies this, uids, pids, ppids
      ensures Value() == ZeroValue()
    {
      globalMode, uidMode, pidMode, ppidMode, netioMode := 0, 0, 0, 0, 0;
      uidsLen, pidsLen, ppidsLen, lock := 0, 0, 0, 0;
      ZeroSlots(uids);
      ZeroSlots(pids);
      ZeroSlots(ppids);
    }
  }

  /** `memset(a, 0, …)` over a whole id array. */
  method ZeroSlots(a: array<int>)
    modifies a
    ensures a[..] == Zeros(a.Length)
  {
    forall i | 0 <= i < a.Length {
      a[i] := 0;
    }
  }

  /** `memcpy` of a whole id array. */
  method CopySlots(dst: array<int>, src: array<int>)
    requires dst != src && dst.Length == src.Length
    modifies dst
    ensures dst[..] == src[..]
  {
    forall i | 0 <= i < dst.Length {
      dst[i] := src[i];
    }
  }

  /** `control_set_ignore_all`: every mode IGNORE, every list zeroed and empty; a NULL struct is left alone. */
  method SetIgnoreAll(dst: ControlInput?)
    requires dst != null ==> dst.Valid()
    modifies if dst == null then {} else dst.Repr()
    ensures dst != null ==> dst.Value() == IgnoreAll(old(dst.Value()))
  {
    if dst == null {
      return;
    }
    dst.globalMode := IGNORE;
    dst.uidMode := IGNORE;
    ZeroSlots(dst.uids);
    dst.uidsLen := 0;
    dst.pidMode := IGNORE;
    ZeroSlots(dst.pids);
    dst.pidsLen := 0;
    dst.ppidMode := IGNORE;
    ZeroSlots(dst.ppids);
    dst.ppidsLen := 0;
    dst.netioMode := IGNORE;
  }

  /** `control_set_default`: the same as `control_set_ignore_all`. */
  method SetDefault(dst: ControlInput?)
    requires dst != null ==> dst.Valid()
    modifies if dst == null then {} else dst.Repr()
    ensures dst != null ==> dst.Value() == IgnoreAll(old(dst.Value()))
  {
    SetIgnoreAll(dst);
  }

  // ---------------------------------------------------------------------------------------------
  // The options

  /**
   * What argp hands a parser function: an option's key letter, or one of argp's special keys
   * (a positional argument, end of arguments, start of parsing, a parse error, or any other).
   */
  datatype Key = Opt(c: char) | KeyArg | KeyEnd | KeyInit | KeyError | KeyOther

  /** The status `argp_usage` ends the program with (argp's default error status). */
  const EX_USAGE: int := 64

  /** The letters of the mode options of src/user/arg/control.c: -g -c -p -k -n. */
  function ModeOption(c: char): (f: Option<ModeField>)
    ensures f.Some? <==> c in {'g', 'c', 'p', 'k', 'n'}
  {
    if c == 'g' then Some(GlobalMode)
    else if c == 'c' then Some(UidMode)
    else if c == 'p' then Some(PidMode)
    else if c == 'k' then Some(PpidMode)
    else if c == 'n' then Some(NetioMode)
    else None
  }

  /** The letters of the list options of src/user/arg/control.c: -C -P -K. */
  function ListOption(c: char): (f: Option<ListField>)
    ensures f.Some? <==> c in {'C', 'P', 'K'}
  {
    if c == 'C' then Some(Uids)
    else if c == 'P' then Some(Pids)
    else if c == 'K' then Some(Ppids)
    else None
  }

  // ---------------------------------------------------------------------------------------------
  // The mode word

  /**
   * The mode `parse_mode` assigns for the word `s`: IGNORE when "ignore" starts with `s`, else
   * CAPTURE when "capture" starts with `s`, else none. The test is `find_string_index(word, s) == 0`
   * and `strlen(s) <= strlen(word)`.
   */
  function ModeOf(s: string): (r: Option<int>)
    ensures r == Some(IGNORE) <==> s <= "ignore"
    ensures r == Some(CAPTURE) <==> s <= "capture" && !(s <= "ignore")
    ensures r.None? <==> !(s <= "ignore") && !(s <= "capture")
  {
    FindStringIndexZero("ignore", s);
    FindStringIndexZero("capture", s);
    if FindStringIndex("ignore", s) == 0 && |s| <= |"ignore"| then Some(IGNORE)
    else if FindStringIndex("capture", s) == 0 && |s| <= |"capture"| then Some(CAPTURE)
    else None
  }

  /** The empty word and "i" select IGNORE, "c" and "capture" select CAPTURE, "x" and "ignores" nothing. */
  lemma ModeOfExamples()
    ensures ModeOf("") == Some(IGNORE) && ModeOf("i") == Some(IGNORE)
    ensures ModeOf("c") == Some(CAPTURE) && ModeOf("capture") == Some(CAPTURE)
    ensures ModeOf("x") == None && ModeOf("ignores") == None
  {
    assert "x"[0] != "ignore"[0] && "x"[0] != "capture"[0];
    assert !("ignores" <= "capture");
    assert "c" <= "capture" && !("c" <= "ignore");
    assert "capture" <= "capture" && !("capture" <= "ignore");
  }

  // ---------------------------------------------------------------------------------------------
  // The id list

  /** What `strtol` makes of one token: whether it is accepted, and the slot value it gives. */
  datatype Item = Item(valid: bool, value: int)

  /**
   * A token is accepted when `strtol` consumes all of it and the value is not negative; the slot
   * gets the `long` narrowed by the `(int)` cast.
   */
  function ItemOf(t: string): (it: Item)
    ensures it.valid <==> StrToL(t).end == |t| && StrToL(t).value >= 0
    ensures it.valid ==> 0 <= it.value <= INT_MAX || StrToL(t).value > INT_MAX
  {
    var c := StrToL(t);
    Item(c.end == |t| && c.value >= 0, ToInt32(c.value))
  }

  function ItemsOf(ts: seq<string>): (items: seq<Item>)
    ensures |items| == |ts| && forall k | 0 <= k < |ts| :: items[k] == ItemOf(ts[k])
  {
    seq(|ts|, k requires 0 <= k < |ts| => ItemOf(ts[k]))
  }

  function Values(items: seq<Item>): (vs: seq<int>)
    ensures |vs| == |items| && forall k | 0 <= k < |items| :: vs[k] == items[k].value
  {
    seq(|items|, k requires 0 <= k < |items| => items[k].value)
  }

  /** What the list loop leaves behind: the values written to the front of the array, and success. */
  datatype ListParse = ListParse(written: seq<int>, ok: bool)

  /**
   * The `strtok` loop over the converted tokens with room for `max` items: each token in turn is
   * checked and stored; an invalid token, or a token still waiting when `max` items are stored, fails.
   */
  function ParseItems(items: seq<Item>, max: nat): (r: ListParse)
    ensures |r.written| <= max && |r.written| <= |items|
    decreases |items|
  {
    if items == [] then ListParse([], true)
    else if max == 0 || !items[0].valid then ListParse([], false)
    else
      var rest := ParseItems(items[1..], max - 1);
      ListParse([items[0].value] + rest.written, rest.ok)
  }

  /** `parse_int_list` on the option text `s`: the comma-separated tokens, empty fields skipped. */
  function ParseList(s: string, max: nat): ListParse
  {
    ParseItems(ItemsOf(Tokens(s, {','})), max)
  }

  /** The values of the first `i` tokens are the first token's value and those of the next `i - 1`. */
  lemma ValuesFront(items: seq<Item>, i: nat)
    requires 0 < i <= |items|
    ensures Values(items[..i]) == [items[0].value] + Values(items[1..][..i - 1])
  {
    assert items[1..][..i - 1] == items[1..i];
  }

  /** One accepted token: the parse stores its value and goes on with the rest and one slot less. */
  lemma ParseItemsFront(items: seq<Item>, max: nat)
    requires items != [] && max > 0 && items[0].valid
    ensures ParseItems(items, max).written == [items[0].value] + ParseItems(items[1..], max - 1).written
    ensures ParseItems(items, max).ok == ParseItems(items[1..], max - 1).ok
  {
  }

  /** After `i` accepted tokens the loop continues with the rest of the tokens and `max - i` slots. */
  lemma {:induction false} ParseItemsAfter(items: seq<Item>, max: nat, i: nat)
    requires i <= |items| && i <= max && forall k | 0 <= k < i :: items[k].valid
    ensures ParseItems(items, max).written == Values(items[..i]) + ParseItems(items[i..], max - i).written
    ensures ParseItems(items, max).ok == ParseItems(items[i..], max - i).ok
  {
    if i > 0 {
      var tail := items[1..];
      assert items[0].valid;
      ParseItemsFront(items, max);
      assert forall k | 0 <= k < i - 1 :: tail[k].valid by {
        forall k | 0 <= k < i - 1 ensures tail[k].valid { assert tail[k] == items[k + 1]; }
      }
      ParseItemsAfter(tail, max - 1, i - 1);
      assert tail[i - 1..] == items[i..];
      ValuesFront(items, i);
    } else {
      assert items[0..] == items;
    }
  }

  /** The list is accepted exactly when it has at most `max` tokens, all valid; it then holds their values. */
  lemma {:induction false} ParseItemsOk(items: seq<Item>, max: nat)
    ensures ParseItems(items, max).ok <==> |items| <= max && forall k | 0 <= k < |items| :: items[k].valid
    ensures ParseItems(items, max).ok ==> ParseItems(items, max).written == Values(items)
    decreases |items|
  {
    if items != [] && max > 0 && items[0].valid {
      ParseItemsOk(items[1..], max - 1);
      if ParseItems(items[1..], max - 1).ok {
        assert Values(items) == [items[0].value] + Values(items[1..]);
      }
      assert forall k | 1 <= k < |items| :: items[k] == items[1..][k - 1];
    }
  }

  /**
   * A failed list still leaves the values of the tokens accepted before the failure: either `max`
   * of them with a token left over, or those before the first invalid token.
   */
  lemma {:induction false} ParseItemsFailure(items: seq<Item>, max: nat)
    requires !ParseItems(items, max).ok
    ensures var n := |ParseItems(items, max).written|;
      ParseItems(items, max).written == Values(items[..n])
      && n < |items| && (n == max || !items[n].valid)
    decreases |items|
  {
    if items != [] && max > 0 && items[0].valid {
      ParseItemsFailure(items[1..], max - 1);
      var n := |ParseItems(items, max).written|;
      assert items[1..][..n - 1] == items[1..n];
      assert Values(items[..n]) == [items[0].value] + Values(items[1..n]);
    }
  }

  /** The decimal renderings of `vs`. */
  function Renderings(vs: seq<int>): (ts: seq<string>)
    ensures |ts| == |vs| && forall k | 0 <= k < |vs| :: ts[k] == IntToString(vs[k])
  {
    seq(|vs|, k requires 0 <= k < |vs| => IntToString(vs[k]))
  }

  /**
   * The comma-joined decimal list of at most `max` non-negative `int`s is read back as exactly those
   * values, and accepted.
   */
  lemma ParseListRoundTrip(vs: seq<int>, max: nat)
    requires |vs| <= max && forall k | 0 <= k < |vs| :: 0 <= vs[k] <= INT_MAX
    ensures ParseList(JoinWith(Renderings(vs), ','), max) == ListParse(vs, true)
  {
    var ts := Renderings(vs);
    forall k | 0 <= k < |ts|
      ensures ts[k] != [] && forall i | 0 <= i < |ts[k]| :: ts[k][i] != ','
    {
      assert AllDigits(ts[k]);
    }
    TokensOfJoin(ts, ',');
    var items := ItemsOf(ts);
    forall k | 0 <= k < |ts|
      ensures items[k] == Item(true, vs[k])
    {
      StrToLRoundTrip(vs[k]);
    }
    ParseItemsOk(items, max);
    assert Values(items) == vs;
  }

  /** Eleven valid tokens overflow ten slots: the list fails after the first ten values were written. */
  lemma ElevenItemsFail(items: seq<Item>)
    requires |items| == 11 && forall k | 0 <= k < 11 :: items[k].valid
    ensures ParseItems(items, MAX_LIST_ITEMS) == ListParse(Values(items[..10]), false)
  {
    ParseItemsAfter(items, MAX_LIST_ITEMS, 10);
    assert items[10..] == [items[10]];
  }

  /**
   * The struct after `parse_int_list` on list `f` with the text `s`: the accepted values overwrite
   * the front slots whether or not the list succeeds, and the length changes only on success.
   */
  function AfterList(v: ControlValue, f: ListField, s: string): (r: ControlValue)
    requires WellSized(v)
    ensures WellSized(r)
    ensures var p := ParseList(s, MAX_LIST_ITEMS);
      r.Len(f) == (if p.ok then |p.written| else v.Len(f))
      && r.Slots(f) == p.written + v.Slots(f)[|p.written|..]
    ensures forall l: ListField | l != f :: r.Slots(l) == v.Slots(l) && r.Len(l) == v.Len(l)
    ensures forall g: ModeField :: r.Mode(g) == v.Mode(g)
    ensures r.lock == v.lock
  {
    var p := ParseList(s, MAX_LIST_ITEMS);
    v.WithList(f, p.written + v.Slots(f)[|p.written|..], if p.ok then |p.written| else v.Len(f))
  }

  /**
   * A list option succeeds exactly when its text has at most ten tokens, each a non-negative decimal
   * number; the length is then the number of tokens and the front slots hold their values.
   */
  lemma ListOptionMeaning(v: ControlValue, f: ListField, s: string)
    requires WellSized(v)
    ensures var ts := Tokens(s, {','});
      ParseList(s, MAX_LIST_ITEMS).ok <==> |ts| <= MAX_LIST_ITEMS && forall k | 0 <= k < |ts| :: ItemOf(ts[k]).valid
    ensures var ts := Tokens(s, {','});
      ParseList(s, MAX_LIST_ITEMS).ok ==>
        AfterList(v, f, s).Len(f) == |ts| && AfterList(v, f, s).Slots(f)[..|ts|] == Values(ItemsOf(ts))
  {
    var ts := Tokens(s, {','});
    ParseItemsOk(ItemsOf(ts), MAX_LIST_ITEMS);
  }

  /** An array whose front holds `w` and whose other slots kept their old values. */
  lemma FrontThenRest(now: seq<int>, before: seq<int>, w: seq<int>)
    requires |now| == |before| && |w| <= |now|
    requires forall k | 0 <= k < |w| :: now[k] == w[k]
    requires forall k | |w| <= k < |now| :: now[k] == before[k]
    ensures now == w + before[|w|..]
  {
  }

  /**
   * The loop of `parse_int_list` proper: while tokens remain and fewer than `max` are stored,
   * convert the next token with `strtol`, stop at one that is not accepted, else store it.
   */
  method StoreTokens(ts: seq<string>, a: array<int>, max: nat) returns (len: nat)
    requires max <= a.Length
    modifies a
    ensures len <= |ts| && len <= max
    ensures forall k | 0 <= k < len :: ItemOf(ts[k]).valid && a[k] == ItemOf(ts[k]).value
    ensures forall k | len <= k < a.Length :: a[k] == old(a[k])
    ensures len < |ts| && len < max ==> !ItemOf(ts[len]).valid
  {
    len := 0;
    while len < |ts| && len < max
      invariant len <= |ts| && len <= max
      invariant forall k | 0 <= k < len :: ItemOf(ts[k]).valid && a[k] == ItemOf(ts[k]).value
      invariant forall k | len <= k < a.Length :: a[k] == old(a[k])
    {
      var c := StrToL(ts[len]);
      if c.end != |ts[len]| || c.value < 0 {
        return;
      }
      a[len] := ToInt32(c.value);
      len := len + 1;
    }
  }

  /**
   * `parse_int_list`'s work on the array: `strtok` hands out the tokens and accepted values go to
   * the front of `a` as they come, so a failing list has still overwritten the slots before the
   * failure. `len` is what the caller stores as the list length on success.
   */
  method FillIntList(listStr: string, a: array<int>, max: nat) returns (ok: bool, len: nat)
    requires max <= a.Length
    modifies a
    ensures ok == ParseList(listStr, max).ok && len == |ParseList(listStr, max).written|
    ensures a[..] == ParseList(listStr, max).written + old(a[..])[len..]
  {
    var ts := Tokens(listStr, {','});
    len := StoreTokens(ts, a, max);
    ghost var items := ItemsOf(ts);
    ParseItemsAfter(items, max, len);
    ok := len == |ts|;
    if ok {
      assert items[len..] == [];
    } else {
      assert ParseItems(items[len..], max - len) == ListParse([], false);
    }
    FrontThenRest(a[..], old(a[..]), Values(items[..len]));
  }
}
