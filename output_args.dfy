/**
 * What the two `user` option parsers (src/user/args/user.c and src/c/user/args/user.c) share: the
 * output the records go to (a file path, or an IP address and port), the `%s` copy into a
 * fixed-size buffer, and the port check. `inet_pton`/`inet_ntop` are not modelled: what they make
 * of an argument is a parameter, the canonical text of the address as IPv4 and as IPv6, or None
 * where `inet_pton` refuses it.
 */
module OutputArgs {
  import opened Wrappers
  import opened Decimal
  import opened CStd
  import opened BoundedText
  import opened Control

  /** `enum output_type`. */
  const OUTPUT_NONE: int := 0
  const OUTPUT_FILE: int := 1
  const OUTPUT_NET: int := 2

  /** The size of the `ip` buffer, room for the longest IPv6 text and its NUL. */
  const INET6_ADDRSTRLEN: nat := 46

  /**
   * The value of a `struct user_input` without its control part: the output kind, the file path
   * buffer, the address family tag, the address buffer and the port.
   */
  datatype Output = Output(oType: int, filePath: seq<char>, ipKind: int, ip: seq<char>, port: int)

  predicate Buffers(v: Output) { |v.filePath| == PATH_MAX && |v.ip| == INET6_ADDRSTRLEN }

  /** The struct after `memset(…, 0, …)`. */
  function ZeroOutput(): (v: Output)
    ensures Buffers(v) && v.oType == OUTPUT_NONE
  {
    Output(OUTPUT_NONE, seq(PATH_MAX, _ => '\0'), 0, seq(INET6_ADDRSTRLEN, _ => '\0'), 0)
  }

  /**
   * `snprintf(buf, |buf|, "%s", s)` on the buffer's contents: as much of `s` as fits before a NUL,
   * the rest of the buffer untouched. (inet_ntop writes an address text the same way.)
   */
  function WriteCString(buf: seq<char>, s: string): (r: seq<char>)
    requires 0 < |buf|
    ensures |r| == |buf|
  {
    var k := if |s| < |buf| then |s| else |buf| - 1;
    s[..k] + ['\0'] + buf[k + 1..]
  }

  /** A string shorter than the buffer is read back whole as a C string. */
  lemma WriteCStringReadsBack(buf: seq<char>, s: string)
    requires |s| < |buf| && NoNul(s)
    ensures CString(WriteCString(buf, s)) == s
  {
    var r := WriteCString(buf, s);
    assert s[..|s|] == s;
    assert r == s + (['\0'] + buf[|s| + 1..]);
    CStringAppend(s, ['\0'] + buf[|s| + 1..]);
  }

  /** A longer string is cut to the buffer's size less one, still NUL-terminated. */
  lemma WriteCStringTruncates(buf: seq<char>, s: string)
    requires 0 < |buf| <= |s| && NoNul(s)
    ensures CString(WriteCString(buf, s)) == s[..|buf| - 1]
  {
    var k := |buf| - 1;
    var r := WriteCString(buf, s);
    assert r == s[..k] + (['\0'] + buf[k + 1..]);
    CStringAppend(s[..k], ['\0'] + buf[k + 1..]);
  }

  /** What `inet_pton` + `inet_ntop` make of an argument: its canonical IPv4 and IPv6 texts, where it is one. */
  datatype Resolved = Resolved(v4: Option<string>, v6: Option<string>)

  /** One parser call: argp's key, the option's argument (the options take it optionally), and what it resolves to as an address. */
  datatype Event = Event(key: Key, arg: Option<string>, addr: Resolved)

  /** The option keys of the two `user` parsers: -f, -N and -s. */
  predicate OwnOption(c: char)
  {
    c == 'f' || c == 'N' || c == 's'
  }

  /**
   * Whether argp goes on after a call: it does after an answer 0, and after the default branch's
   * ARGP_ERR_UNKNOWN, which leaves the key to the child parser or to argp. Every other non-zero
   * answer follows `argp_failure(state, -1, …)` or `argp_usage`, and both end the program.
   */
  predicate Continues(key: Key, err: int)
  {
    err == 0 || match key
      case Opt(c) => !OwnOption(c)
      case KeyError => true
      case KeyOther => true
      case _ => false
  }

  /** `inet_ntop` texts are non-empty, NUL-free and fit the `ip` buffer. */
  predicate Canonical(r: Resolved)
  {
    (r.v4.Some? ==> 0 < |r.v4.value| < INET6_ADDRSTRLEN && NoNul(r.v4.value))
    && (r.v6.Some? ==> 0 < |r.v6.value| < INET6_ADDRSTRLEN && NoNul(r.v6.value))
  }

  /**
   * The port check of `parse_port`: `strtol` must consume the whole argument without overflow,
   * and the value must lie in 1..65535 (an empty argument converts to 0 and fails the range).
   */
  function PortOf(arg: string): (r: Option<int>)
    ensures r.Some? ==> 1 <= r.value <= 65535 && StrToL(arg) == Conversion(r.value, |arg|, false)
  {
    var c := StrToL(arg);
    if c.end != |arg| || c.outOfRange || c.value < 1 || c.value > 65535 then None
    else Some(c.value)
  }

  /** The port option reads back exactly the rendered ports 1..65535. */
  lemma PortRoundTrip(n: int)
    requires LONG_MIN <= n <= LONG_MAX
    ensures PortOf(IntToString(n)) == if 1 <= n <= 65535 then Some(n) else None
  {
    StrToLRoundTrip(n);
  }

  /** Words, trailing text and an empty argument are not ports. */
  lemma PortRefusesText()
    ensures PortOf("") == None
    ensures PortOf("http") == None
    ensures PortOf("80x") == None
  {
    assert LeadingDigits("http") == 0;
    assert LeadingDigits("80x"[0..]) == 2 && "80x"[0..2] == "80";
  }

  /** A leading blank is skipped, as `strtol` skips it. */
  lemma PortSkipsBlank()
    ensures PortOf(" 80") == Some(80)
  {
    assert LeadingSpaces(" 80") == 1;
    assert LeadingDigits(" 80"[1..]) == 2 && " 80"[1..3] == "80";
    assert NumberSpan(" 80") == (false, 1, 3);
    assert DigitsValue("80") == 80;
  }

  // ---------------------------------------------------------------------------------------------
  // The state

  /** `struct user_input` without its control part. */
  class UserInput {
    var oType: int
    const filePath: array<char>
    var ipKind: int
    const ip: array<char>
    var port: int

    ghost predicate Valid()
      reads this
    {
      filePath.Length == PATH_MAX && ip.Length == INET6_ADDRSTRLEN && filePath != ip
    }

    ghost function Repr(): set<object>
      reads this
    {
      {this, filePath, ip}
    }

    function Value(): Output
      reads this, filePath, ip
    {
      Output(oType, filePath[..], ipKind, ip[..], port)
    }

    constructor ()
      ensures Valid() && fresh(Repr()) && Value() == ZeroOutput()
    {
      oType, ipKind, port := OUTPUT_NONE, 0, 0;
      filePath := new char[PATH_MAX](_ => '\0');
      ip := new char[INET6_ADDRSTRLEN](_ => '\0');
    }

    /** `memset` of the whole struct to zero. */
    method Zero()
      requires Valid()
      modifies Repr()
      ensures Valid() && Value() == ZeroOutput()
    {
      oType, ipKind, port := OUTPUT_NONE, 0, 0;
      forall i | 0 <= i < PATH_MAX {
        filePath[i] := '\0';
      }
      forall i | 0 <= i < INET6_ADDRSTRLEN {
        ip[i] := '\0';
      }
    }
  }

  /** `snprintf(buf, buf.Length, "%s", s)`: answers the length of `s` whether or not it fit. */
  method SnprintfString(buf: array<char>, s: string) returns (n: int)
    requires 0 < buf.Length
    modifies buf
    ensures n == |s| && buf[..] == WriteCString(old(buf[..]), s)
  {
    var k := if |s| < buf.Length then |s| else buf.Length - 1;
    forall i | 0 <= i < k {
      buf[i] := s[i];
    }
    buf[k] := '\0';
    return |s|;
  }
}
