/**
 * The output options of src/user/args/user.c: -f PATH for a file, -N IP and -s PORT for the
 * network. The struct starts with no output kind, and the two kinds exclude each other: a file
 * option after an address or port, or an address or port after a file option, is refused. Every
 * refusal first calls `argp_failure` with status -1, which (the parse runs with argp flags 0) ends
 * the program, so the first refused call is the last one; a positional argument ends it through
 * `argp_usage`. The control options belong to the child parser (the ArgsControl module).
 */
module UserArgs {
  import opened Wrappers
  import opened CStd
  import opened BoundedText
  import opened Control
  import opened ArgsControl
  import opened OutputArgs

  /** The tag `parse_ip` stores for each address family. */
  const IP_VERSION_4: int := 4
  const IP_VERSION_6: int := 6

  /** `parse_arg_output_file`. */
  function FileStep(v: Output, arg: Option<string>): (r: (Output, int))
    requires Buffers(v)
    ensures Buffers(r.0)
  {
    if v.oType == OUTPUT_NET then (v, ARGP_ERR_UNKNOWN)
    else if arg.None? then (v, ARGP_ERR_UNKNOWN)
    else
      var path := WriteCString(v.filePath, arg.value);
      if |arg.value| >= PATH_MAX then (v.(filePath := path), ARGP_ERR_UNKNOWN)
      else (v.(filePath := path, oType := OUTPUT_FILE), 0)
  }

  /** `parse_ip`: IPv4 first, then IPv6. */
  function IpStep(v: Output, arg: Option<string>, addr: Resolved): (r: (Output, int))
    requires Buffers(v)
    ensures Buffers(r.0)
  {
    if v.oType == OUTPUT_FILE then (v, ARGP_ERR_UNKNOWN)
    else if arg.None? then (v, ARGP_ERR_UNKNOWN)
    else if addr.v4.Some? then (v.(ip := WriteCString(v.ip, addr.v4.value), ipKind := IP_VERSION_4, oType := OUTPUT_NET), 0)
    else if addr.v6.Some? then (v.(ip := WriteCString(v.ip, addr.v6.value), ipKind := IP_VERSION_6, oType := OUTPUT_NET), 0)
    else (v, ARGP_ERR_UNKNOWN)
  }

  /** `parse_port`. */
  function PortStep(v: Output, arg: Option<string>): (r: (Output, int))
    requires Buffers(v)
    ensures Buffers(r.0)
  {
    if v.oType == OUTPUT_FILE then (v, ARGP_ERR_UNKNOWN)
    else if arg.None? then (v, ARGP_ERR_UNKNOWN)
    else
      match PortOf(arg.value)
      case Some(n) => (v.(port := n, oType := OUTPUT_NET), 0)
      case None => (v, ARGP_ERR_UNKNOWN)
  }

  /** `validate_user_input`: some output kind must have been chosen. */
  function ValidateStatus(v: Output): (err: int)
  {
    if v.oType == OUTPUT_NONE then ARGP_ERR_UNKNOWN else 0
  }

  /** One `parse_opt` call and its answer. */
  function Step(v: Output, e: Event): (r: (Output, int))
    requires Buffers(v)
    ensures Buffers(r.0)
  {
    match e.key
    case Opt(c) =>
      if c == 'f' then FileStep(v, e.arg)
      else if c == 'N' then IpStep(v, e.arg, e.addr)
      else if c == 's' then PortStep(v, e.arg)
      else (v, ARGP_ERR_UNKNOWN)
    case KeyInit => (v, 0)
    case KeyArg => (v, EX_USAGE)
    case KeyEnd => (v, ValidateStatus(v))
    case _ => (v, ARGP_ERR_UNKNOWN)
  }

  /** The calls in order, up to the first that ends the program; the answer is that call's, or 0. */
  function Run(v: Output, events: seq<Event>): (r: (Output, int))
    requires Buffers(v)
    ensures Buffers(r.0)
    decreases |events|
  {
    if events == [] then (v, 0)
    else
      var (w, err) := Step(v, events[0]);
      if !Continues(events[0].key, err) then (w, err) else Run(w, events[1..])
  }

  /** `init_user_input`: the zeroed struct with no output kind. */
  function InitialOutput(): (v: Output)
    ensures Buffers(v) && v.oType == OUTPUT_NONE
  {
    ZeroOutput()
  }

  /** What `user_args_user_must_parse_user_input` leaves in `dst` and answers, for the calls between ARGP_KEY_INIT and ARGP_KEY_END. */
  function Outcome(events: seq<Event>): (r: (Output, int))
    ensures Buffers(r.0)
  {
    var (w, err) := Run(InitialOutput(), events);
    if err != 0 then (w, err) else Step(w, Event(KeyEnd, None, Resolved(None, None)))
  }

  // ---------------------------------------------------------------------------------------------
  // What the rules mean

  /** An address is stored as IPv4 when it is one, else as IPv6 when it is one, else refused. */
  lemma IpChoice(v: Output, arg: string, addr: Resolved)
    requires Buffers(v) && v.oType != OUTPUT_FILE
    ensures var (w, err) := IpStep(v, Some(arg), addr);
      (err == 0 <==> addr.v4.Some? || addr.v6.Some?)
      && (addr.v4.Some? ==> w.ipKind == IP_VERSION_4 && w.oType == OUTPUT_NET)
      && (addr.v4.None? && addr.v6.Some? ==> w.ipKind == IP_VERSION_6 && w.oType == OUTPUT_NET)
      && (err != 0 ==> w == v)
  {
  }

  /** A file kind stays a file kind: every later address or port option is refused. */
  lemma {:induction false} FileExcludesNet(v: Output, events: seq<Event>, j: nat)
    requires Buffers(v) && v.oType == OUTPUT_FILE
    requires j < |events| && events[j].key in {Opt('N'), Opt('s')}
    ensures Run(v, events).1 != 0
    decreases |events|
  {
    var (w, err) := Step(v, events[0]);
    if Continues(events[0].key, err) {
      assert w.oType == OUTPUT_FILE && j > 0;
      assert events[1..][j - 1] == events[j];
      FileExcludesNet(w, events[1..], j - 1);
    }
  }

  /** A network kind stays a network kind: every later file option is refused. */
  lemma {:induction false} NetExcludesFile(v: Output, events: seq<Event>, i: nat)
    requires Buffers(v) && v.oType == OUTPUT_NET
    requires i < |events| && events[i].key == Opt('f')
    ensures Run(v, events).1 != 0
    decreases |events|
  {
    var (w, err) := Step(v, events[0]);
    if Continues(events[0].key, err) {
      assert w.oType == OUTPUT_NET && i > 0;
      assert events[1..][i - 1] == events[i];
      NetExcludesFile(w, events[1..], i - 1);
    }
  }

  /** Calls that name both a file and an address or port, in either order, never parse. */
  lemma {:induction false} MixedKindsRefused(v: Output, events: seq<Event>, i: nat, j: nat)
    requires Buffers(v)
    requires i < |events| && events[i].key == Opt('f')
    requires j < |events| && events[j].key in {Opt('N'), Opt('s')}
    ensures Run(v, events).1 != 0
    decreases |events|
  {
    var (w, err) := Step(v, events[0]);
    if Continues(events[0].key, err) {
      if i == 0 {
        assert w.oType == OUTPUT_FILE;
        assert events[1..][j - 1] == events[j];
        FileExcludesNet(w, events[1..], j - 1);
      } else if j == 0 {
        assert w.oType == OUTPUT_NET;
        assert events[1..][i - 1] == events[i];
        NetExcludesFile(w, events[1..], i - 1);
      } else {
        assert events[1..][i - 1] == events[i] && events[1..][j - 1] == events[j];
        MixedKindsRefused(w, events[1..], i - 1, j - 1);
      }
    }
  }

  /** A parse that answers 0 has chosen exactly one output kind, and never from calls naming both. */
  lemma OneOutputKind(events: seq<Event>)
    ensures Outcome(events).1 == 0 ==> Outcome(events).0.oType != OUTPUT_NONE
    ensures (exists i, j | 0 <= i < |events| && 0 <= j < |events| ::
      events[i].key == Opt('f') && events[j].key in {Opt('N'), Opt('s')}) ==> Outcome(events).1 != 0
  {
    if exists i, j | 0 <= i < |events| && 0 <= j < |events| :: events[i].key == Opt('f') && events[j].key in {Opt('N'), Opt('s')} {
      var i, j :| 0 <= i < |events| && 0 <= j < |events| && events[i].key == Opt('f') && events[j].key in {Opt('N'), Opt('s')};
      MixedKindsRefused(InitialOutput(), events, i, j);
    }
  }

  /** A file option alone gives file output to that path. */
  lemma FileOptionParses(path: string, addr: Resolved)
    requires 0 < |path| < PATH_MAX && NoNul(path)
    ensures var (w, err) := Outcome([Event(Opt('f'), Some(path), addr)]);
      err == 0 && w.oType == OUTPUT_FILE && CString(w.filePath) == path
  {
    var e := [Event(Opt('f'), Some(path), addr)];
    var z := InitialOutput();
    var s1 := Step(z, e[0]);
    assert s1 == FileStep(z, Some(path));
    assert s1.1 == 0 && s1.0.oType == OUTPUT_FILE;
    assert e[1..] == [];
    assert Run(z, e) == Run(s1.0, []) == s1;
    assert Outcome(e) == Step(s1.0, Event(KeyEnd, None, Resolved(None, None))) == s1;
    WriteCStringReadsBack(z.filePath, path);
  }

  /** An address then a port give network output to both. */
  lemma AddressAndPortParse(ip: string, addr: Resolved, port: string)
    requires Canonical(addr) && (addr.v4.Some? || addr.v6.Some?) && PortOf(port).Some?
    ensures var (w, err) := Outcome([Event(Opt('N'), Some(ip), addr), Event(Opt('s'), Some(port), addr)]);
      var text := if addr.v4.Some? then addr.v4.value else addr.v6.value;
      err == 0 && w.oType == OUTPUT_NET && CString(w.ip) == text && w.port == PortOf(port).value
  {
    var e := [Event(Opt('N'), Some(ip), addr), Event(Opt('s'), Some(port), addr)];
    var z := InitialOutput();
    var text := if addr.v4.Some? then addr.v4.value else addr.v6.value;
    var s1 := Step(z, e[0]);
    assert s1 == IpStep(z, Some(ip), addr);
    assert s1.1 == 0 && s1.0.oType == OUTPUT_NET && s1.0.ip == WriteCString(z.ip, text);
    var s2 := Step(s1.0, e[1]);
    assert s2 == PortStep(s1.0, Some(port));
    assert s2.1 == 0 && s2.0 == s1.0.(port := PortOf(port).value);
    assert e[1..] == [e[1]] && e[1..][1..] == [];
    assert Run(s1.0, e[1..]) == Run(s2.0, []) == s2;
    assert Run(z, e) == s2;
    assert Outcome(e) == Step(s2.0, Event(KeyEnd, None, Resolved(None, None))) == s2;
    WriteCStringReadsBack(z.ip, text);
  }

  /** With no output option the final check refuses the parse. */
  lemma NoOutputRefused()
    ensures Outcome([]).1 == ARGP_ERR_UNKNOWN
  {
  }

  // ---------------------------------------------------------------------------------------------
  // The state

  /** `init_user_input`: `memset` to zero and no output kind. */
  method InitUserInput(dst: UserInput)
    requires dst.Valid()
    modifies dst.Repr()
    ensures dst.Valid() && dst.Value() == InitialOutput()
  {
    dst.Zero();
    dst.oType := OUTPUT_NONE;
  }

  /** `parse_arg_output_file`. */
  method ParseArgOutputFile(dst: UserInput, arg: Option<string>) returns (err: int)
    requires dst.Valid()
    modifies dst, dst.filePath
    ensures dst.Valid() && (dst.Value(), err) == FileStep(old(dst.Value()), arg)
  {
    if dst.oType == OUTPUT_NET {
      return ARGP_ERR_UNKNOWN;
    }
    if arg.None? {
      return ARGP_ERR_UNKNOWN;
    }
    var n := SnprintfString(dst.filePath, arg.value);
    if n >= PATH_MAX {
      return ARGP_ERR_UNKNOWN;
    }
    dst.oType := OUTPUT_FILE;
    return 0;
  }

  /** `parse_ip`, with the address conversions given. */
  method ParseIp(dst: UserInput, arg: Option<string>, addr: Resolved) returns (err: int)
    requires dst.Valid()
    modifies dst, dst.ip
    ensures dst.Valid() && (dst.Value(), err) == IpStep(old(dst.Value()), arg, addr)
  {
    if dst.oType == OUTPUT_FILE {
      return ARGP_ERR_UNKNOWN;
    }
    if arg.None? {
      return ARGP_ERR_UNKNOWN;
    }
    if addr.v4.Some? {
      var _ := SnprintfString(dst.ip, addr.v4.value);
      dst.ipKind := IP_VERSION_4;
      dst.oType := OUTPUT_NET;
      return 0;
    }
    if addr.v6.Some? {
      var _ := SnprintfString(dst.ip, addr.v6.value);
      dst.ipKind := IP_VERSION_6;
      dst.oType := OUTPUT_NET;
      return 0;
    }
    return ARGP_ERR_UNKNOWN;
  }

  /** `parse_port`. */
  method ParsePort(dst: UserInput, arg: Option<string>) returns (err: int)
    requires dst.Valid()
    modifies dst
    ensures dst.Valid() && (dst.Value(), err) == PortStep(old(dst.Value()), arg)
  {
    if dst.oType == OUTPUT_FILE {
      return ARGP_ERR_UNKNOWN;
    }
    if arg.None? {
      return ARGP_ERR_UNKNOWN;
    }
    var c := StrToL(arg.value);
    if c.end != |arg.value| || c.outOfRange || c.value < 1 || c.value > 65535 {
      return ARGP_ERR_UNKNOWN;
    }
    dst.port := c.value;
    dst.oType := OUTPUT_NET;
    return 0;
  }

  /** `parse_opt` on the struct argp hands it. */
  method ParseOpt(dst: UserInput, e: Event) returns (err: int)
    requires dst.Valid()
    modifies dst.Repr()
    ensures dst.Valid() && (dst.Value(), err) == Step(old(dst.Value()), e)
  {
    match e.key
    case Opt(c) =>
      if c == 'f' {
        err := ParseArgOutputFile(dst, e.arg);
      } else if c == 'N' {
        err := ParseIp(dst, e.arg, e.addr);
      } else if c == 's' {
        err := ParsePort(dst, e.arg);
      } else {
        err := ARGP_ERR_UNKNOWN;
      }
    case KeyInit =>
      err := 0;
    case KeyArg =>
      err := EX_USAGE;
    case KeyEnd =>
      err := if dst.oType == OUTPUT_NONE then ARGP_ERR_UNKNOWN else 0;
    case KeyError =>
      err := ARGP_ERR_UNKNOWN;
    case KeyOther =>
      err := ARGP_ERR_UNKNOWN;
  }

  /** argp's calls in order, up to the first that ends the program. */
  method RunEvents(dst: UserInput, events: seq<Event>) returns (err: int)
    requires dst.Valid()
    modifies dst.Repr()
    ensures dst.Valid() && (dst.Value(), err) == Run(old(dst.Value()), events)
  {
    var i := 0;
    while i < |events|
      invariant 0 <= i <= |events| && dst.Valid()
      invariant Run(dst.Value(), events[i..]) == Run(old(dst.Value()), events)
    {
      assert events[i..][1..] == events[i + 1..];
      err := ParseOpt(dst, events[i]);
      if !Continues(events[i].key, err) {
        return;
      }
      i := i + 1;
    }
    assert events[i..] == [];
    return 0;
  }

  /** `user_args_user_must_parse_user_input`: initialise `dst`, run argp's calls, end with the final check. */
  method MustParseUserInput(dst: UserInput, events: seq<Event>) returns (err: int)
    requires dst.Valid()
    modifies dst.Repr()
    ensures dst.Valid() && (dst.Value(), err) == Outcome(events)
  {
    InitUserInput(dst);
    err := RunEvents(dst, events);
    if err != 0 {
      return;
    }
    err := ParseOpt(dst, Event(KeyEnd, None, Resolved(None, None)));
  }
}
