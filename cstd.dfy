/**
 * The C library behaviour the user-space helpers rely on, written out: `isspace` in the C locale,
 * `strtol`/`strtoul`/`strtoull` in base 10, `strtok`, `strstr`, NUL-terminated strings and the
 * implementation-defined narrowing conversions of an LP64 Linux target.
 */
module CStd {
  import opened Decimal

  const INT_MIN: int := -0x8000_0000
  const INT_MAX: int := 0x7fff_ffff
  const LONG_MIN: int := -0x8000_0000_0000_0000
  const LONG_MAX: int := 0x7fff_ffff_ffff_ffff
  const ULONG_MAX: int := 0xffff_ffff_ffff_ffff
  const UINT16_MAX: int := 0xffff
  /** PATH_MAX of <linux/limits.h>. */
  const PATH_MAX: nat := 4096
  /** `sizeof(size_t)` on LP64. */
  const SIZE_T_BYTES: nat := 8

  /** `isspace` in the C locale. */
  predicate IsSpace(c: char) { c == ' ' || c == '\t' || c == '\n' || c == '\U{0B}' || c == '\U{0C}' || c == '\r' }

  /** Number of leading characters of `s` that satisfy `isspace`. */
  function LeadingSpaces(s: string): (n: nat)
    ensures n <= |s| && (n < |s| ==> !IsSpace(s[n]))
    ensures forall i | 0 <= i < n :: IsSpace(s[i])
  {
    if s != [] && IsSpace(s[0]) then 1 + LeadingSpaces(s[1..]) else 0
  }

  /** Number of leading decimal digits of `s`. */
  function LeadingDigits(s: string): (n: nat)
    ensures n <= |s| && (n < |s| ==> !IsDigit(s[n]))
    ensures AllDigits(s[..n])
  {
    if s != [] && IsDigit(s[0]) then 1 + LeadingDigits(s[1..]) else 0
  }

  /** What a base-10 `strto*` call reports: the value, the index `*endptr` points at, and whether errno became ERANGE. */
  datatype Conversion = Conversion(value: int, end: nat, outOfRange: bool)

  /** The optional sign and the digits that follow the leading white space: (negative, first digit index, end of digits). */
  function NumberSpan(s: string): (r: (bool, nat, nat))
    ensures r.1 <= r.2 <= |s| && AllDigits(s[r.1..r.2])
  {
    var i := LeadingSpaces(s);
    var signed := i < |s| && (s[i] == '-' || s[i] == '+');
    var j := if signed then i + 1 else i;
    var n := LeadingDigits(s[j..]);
    assert s[j..][..n] == s[j..j + n];
    (signed && s[i] == '-', j, j + n)
  }

  /** `strtol(s, &end, 10)`: white space, an optional sign, then digits; clamped to the `long` range with ERANGE. */
  function StrToL(s: string): (c: Conversion)
    ensures LONG_MIN <= c.value <= LONG_MAX && c.end <= |s|
    ensures c.end == 0 ==> c.value == 0
  {
    var (neg, j, k) := NumberSpan(s);
    if k == j then Conversion(0, 0, false)
    else
      var mag := DigitsValue(s[j..k]);
      var v: int := if neg then 0 - (mag as int) else mag;
      if v > LONG_MAX then Conversion(LONG_MAX, k, true)
      else if v < LONG_MIN then Conversion(LONG_MIN, k, true)
      else Conversion(v, k, false)
  }

  /**
   * `strtoull(s, &end, 10)` (and `strtoul` on LP64): as `strtol`, but a magnitude above ULONG_MAX
   * saturates with ERANGE and a leading '-' negates in unsigned arithmetic (modulo 2^64).
   */
  function StrToULL(s: string): (c: Conversion)
    ensures 0 <= c.value <= ULONG_MAX && c.end <= |s|
  {
    var (neg, j, k) := NumberSpan(s);
    if k == j then Conversion(0, 0, false)
    else
      var mag := DigitsValue(s[j..k]);
      if mag > ULONG_MAX then Conversion(ULONG_MAX, k, true)
      else if neg && mag > 0 then Conversion(ULONG_MAX + 1 - mag, k, false)
      else Conversion(mag, k, false)
  }

  /** `strtol` reads back what `%ld` writes. */
  lemma StrToLRoundTrip(v: int)
    requires LONG_MIN <= v <= LONG_MAX
    ensures StrToL(IntToString(v)) == Conversion(v, |IntToString(v)|, false)
  {
    var m := if v < 0 then -v else v;
    NumberSpanOfIntString(v);
    NatToStringRoundTrip(m);
    assert IntToString(v)[(if v < 0 then 1 else 0)..|IntToString(v)|] == NatToString(m);
  }

  /**
   * `strtoull` reads back every `%llu` rendering; a number above ULONG_MAX saturates and is
   * reported out of range, the whole string consumed either way.
   */
  lemma StrToULLOfNatString(n: nat)
    ensures StrToULL(NatToString(n)) == if n <= ULONG_MAX then Conversion(n, |NatToString(n)|, false)
      else Conversion(ULONG_MAX, |NatToString(n)|, true)
  {
    NumberSpanOfIntString(n);
    NatToStringRoundTrip(n);
    assert NatToString(n)[0..|NatToString(n)|] == NatToString(n);
  }

  /** `strtol` skips one leading blank before a rendered natural number and reads the number back. */
  lemma StrToLAfterSpace(v: nat)
    requires v <= LONG_MAX
    ensures StrToL(" " + NatToString(v)) == Conversion(v, 1 + |NatToString(v)|, false)
  {
    var digits := NatToString(v);
    var s := " " + digits;
    assert s[1..] == digits;
    assert !IsSpace(digits[0]);
    assert LeadingSpaces(s) == 1;
    LeadingDigitsAll(digits);
    assert s[1..][..|digits|] == digits && s[1..1 + |digits|] == digits;
    NatToStringRoundTrip(v);
  }

  /** In the rendering of an integer the sign is the optional '-' and every other character a digit. */
  lemma NumberSpanOfIntString(v: int)
    ensures NumberSpan(IntToString(v)) == (v < 0, if v < 0 then 1 else 0, |IntToString(v)|)
  {
    var s := IntToString(v);
    var digits := NatToString(if v < 0 then -v else v);
    assert !IsSpace(s[0]);
    assert LeadingSpaces(s) == 0;
    LeadingDigitsAll(digits);
    if v < 0 {
      assert s[1..] == digits;
    } else {
      assert s[0..] == digits;
    }
  }

  lemma {:induction false} LeadingDigitsAll(s: string)
    requires AllDigits(s)
    ensures LeadingDigits(s) == |s|
  {
    if s != [] { LeadingDigitsAll(s[1..]); }
  }

  /** The conversion of a `(int)` cast from a wider integer on gcc: the low 32 bits, two's complement. */
  function ToInt32(v: int): (r: int)
    ensures INT_MIN <= r <= INT_MAX
    ensures (r - v) % 0x1_0000_0000 == 0
    ensures INT_MIN <= v <= INT_MAX ==> r == v
  {
    var u := v % 0x1_0000_0000;
    if u > INT_MAX then u - 0x1_0000_0000 else u
  }

  /** Length of the longest prefix of `s` containing no character of `delims`. */
  function RunLength(s: string, delims: set<char>): (n: nat)
    ensures n <= |s| && (n < |s| ==> s[n] in delims)
    ensures forall i | 0 <= i < n :: s[i] !in delims
  {
    if s != [] && s[0] !in delims then 1 + RunLength(s[1..], delims) else 0
  }

  /** The tokens successive `strtok` calls return: maximal runs of non-delimiters; empty fields are skipped. */
  function Tokens(s: string, delims: set<char>): (ts: seq<string>)
    ensures forall k | 0 <= k < |ts| :: ts[k] != [] && forall i | 0 <= i < |ts[k]| :: ts[k][i] !in delims
    decreases |s|
  {
    if s == [] then []
    else if s[0] in delims then Tokens(s[1..], delims)
    else
      var n := RunLength(s, delims);
      [s[..n]] + Tokens(s[n..], delims)
  }

  /** The tokens joined with one delimiter between each pair. */
  function JoinWith(ts: seq<string>, d: char): string
  {
    if ts == [] then [] else if |ts| == 1 then ts[0] else ts[0] + [d] + JoinWith(ts[1..], d)
  }

  /** Joining one more item appends a delimiter and the item. */
  lemma {:induction false} JoinWithSnoc(ts: seq<string>, t: string, d: char)
    requires ts != []
    ensures JoinWith(ts + [t], d) == JoinWith(ts, d) + [d] + t
  {
    if |ts| > 1 {
      assert (ts + [t])[1..] == ts[1..] + [t];
      JoinWithSnoc(ts[1..], t, d);
    } else {
      assert (ts + [t])[1..] == [t];
    }
  }

  /** `strtok` on a delimiter-joined list of non-empty, delimiter-free items returns exactly those items. */
  lemma {:induction false} TokensOfJoin(ts: seq<string>, d: char)
    requires forall k | 0 <= k < |ts| :: ts[k] != [] && forall i | 0 <= i < |ts[k]| :: ts[k][i] != d
    ensures Tokens(JoinWith(ts, d), {d}) == ts
  {
    if |ts| == 1 {
      TokensAfterItem(ts[0], [], d);
      assert JoinWith(ts, d) == ts[0] + [];
    } else if |ts| > 1 {
      var rest := JoinWith(ts[1..], d);
      TokensAfterItem(ts[0], [d] + rest, d);
      assert JoinWith(ts, d) == ts[0] + ([d] + rest);
      TokensAfterDelimiter(rest, d);
      TokensOfJoin(ts[1..], d);
      assert [ts[0]] + ts[1..] == ts;
    }
  }

  /** A delimiter-free item is one token, and `strtok` resumes at the delimiter after it. */
  lemma TokensAfterItem(t: string, rest: string, d: char)
    requires t != [] && forall i | 0 <= i < |t| :: t[i] != d
    requires rest == [] || rest[0] == d
    ensures Tokens(t + rest, {d}) == [t] + Tokens(rest, {d})
  {
    RunLengthOfItem(t, rest, d);
  }

  /** A leading delimiter is skipped. */
  lemma TokensAfterDelimiter(rest: string, d: char)
    ensures Tokens([d] + rest, {d}) == Tokens(rest, {d})
  {
    assert ([d] + rest)[1..] == rest;
  }

  lemma {:induction false} RunLengthOfItem(t: string, rest: string, d: char)
    requires t != [] && forall i | 0 <= i < |t| :: t[i] != d
    requires rest == [] || rest[0] == d
    ensures RunLength(t + rest, {d}) == |t| && (t + rest)[..|t|] == t && (t + rest)[|t|..] == rest
    ensures t + rest != [] && (t + rest)[0] !in {d}
  {
    if |t| > 1 {
      assert (t + rest)[1..] == t[1..] + rest;
      RunLengthOfItem(t[1..], rest, d);
    } else {
      assert (t + rest)[1..] == rest;
    }
  }

  /** The string a NUL-terminated buffer holds: everything before the first NUL (all of it if there is none). */
  function CString(buf: seq<char>): (s: string)
    ensures |s| <= |buf| && s == buf[..|s|]
    ensures forall i | 0 <= i < |s| :: s[i] != '\0'
    ensures |s| < |buf| ==> buf[|s|] == '\0'
  {
    if buf == [] || buf[0] == '\0' then [] else [buf[0]] + CString(buf[1..])
  }

  /** A NUL-free prefix is read through by `strlen`. */
  lemma {:induction false} CStringAppend(p: string, rest: seq<char>)
    requires forall i | 0 <= i < |p| :: p[i] != '\0'
    ensures CString(p + rest) == p + CString(rest)
    decreases |p|
  {
    if p == [] {
      assert p + rest == rest;
    } else {
      assert (p + rest)[0] == p[0] && p[0] != '\0';
      assert (p + rest)[1..] == p[1..] + rest;
      CStringAppend(p[1..], rest);
      calc {
        CString(p + rest);
        [p[0]] + CString(p[1..] + rest);
        [p[0]] + (p[1..] + CString(rest));
        ([p[0]] + p[1..]) + CString(rest);
        { assert [p[0]] + p[1..] == p; }
        p + CString(rest);
      }
    }
  }

  predicate OccursAt(haystack: string, needle: string, i: nat)
  {
    i + |needle| <= |haystack| && haystack[i..i + |needle|] == needle
  }

  /** `strstr(haystack, needle) - haystack`, or -1 when the needle does not occur (search from index `from`). */
  function FindFrom(haystack: string, needle: string, from: nat): (r: int)
    requires from <= |haystack|
    ensures r == -1 || from <= r <= |haystack| - |needle|
    ensures r != -1 ==> OccursAt(haystack, needle, r)
    ensures r == -1 ==> forall i: nat | from <= i :: !OccursAt(haystack, needle, i)
    ensures r != -1 ==> forall i: nat | from <= i < r :: !OccursAt(haystack, needle, i)
    decreases |haystack| - from
  {
    if |haystack| - from < |needle| then -1
    else if haystack[from..from + |needle|] == needle then from
    else FindFrom(haystack, needle, from + 1)
  }

  /** `find_string_index`: the offset of the first occurrence of `needle`, -1 if none. */
  function FindStringIndex(haystack: string, needle: string): int
  {
    FindFrom(haystack, needle, 0)
  }

  /** The first occurrence is at offset 0 exactly when the needle is a prefix of the haystack. */
  lemma FindStringIndexZero(haystack: string, needle: string)
    ensures FindStringIndex(haystack, needle) == 0 <==> needle <= haystack
  {
    if needle <= haystack {
      assert OccursAt(haystack, needle, 0);
    }
  }
}
