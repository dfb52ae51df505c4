/**
 * The second-generation output options (src/c/user/args/user.c), parsed into the static
 * `global_user_input`. ARGP_KEY_INIT resets it to file output at the default path. -f always
 * switches to a file (the check against an earlier address is commented out), -N always switches
 * to the network, and -s is refused while the kind is a file, so a port must follow an address.
 * ARGP_KEY_END accepts the network kind only with an address and a port in 1..65535.
 */
module CUserArgs {
  import opened Wrappers
  import opened CStd
  import opened BoundedText
  import opened Control
  import opened ArgsControl
  import opened OutputArgs

  /** The address family tags `parse_ip` stores (Linux values). */
  const AF_INET: int := 2
  const AF_INET6: int := 10

  /** `default_output_file_path`. */
  const DEFAULT_OUTPUT_FILE_PATH: string := "/tmp/current_prov_log.json"

  lemma DefaultPathShape()
    ensures |DEFAULT_OUTPUT_FILE_PATH| == 26 && NoNul(DEFAULT_OUTPUT_FILE_PATH)
  {
  }

  /** `init_user_input`: all zero, then file output and the default path copied over the zeros. */
  function InitialOutput(): (v: Output)
    ensures Buffers(v) && v.oType == OUTPUT_FILE
  {
    DefaultPathShape();
    var z := ZeroOutput();
    z.(oType := OUTPUT_FILE, filePath := DEFAULT_OUTPUT_FILE_PATH + z.filePath[|DEFAULT_OUTPUT_FILE_PATH|..])
  }

  /** `parse_arg_output_file`: whatever the current kind. */
  function FileStep(v: Output, arg: Option<string>): (r: (Output, int))
    requires Buffers(v)
    ensures Buffers(r.0)
  {
    if arg.None? then (v, ARGP_ERR_UNKNOWN)
    else
      var path := WriteCString(v.filePath, arg.value);
      if |arg.value| >= PATH_MAX then (v.(filePath := path), ARGP_ERR_UNKNOWN)
      else (v.(filePath := path, oType := OUTPUT_FILE), 0)
  }

  /** `parse_ip`: IPv4 first, then IPv6, whatever the current kind. */
  function IpStep(v: Output, arg: Option<string>, addr: Resolved): (r: (Output, int))
    requires Buffers(v)
    ensures Buffers(r.0)
  {
    if arg.None? then (v, ARGP_ERR_UNKNOWN)
    else if addr.v4.Some? then (v.(ip := WriteCString(v.ip, addr.v4.value), ipKind := AF_INET, oType := OUTPUT_NET), 0)
    else if addr.v6.Some? then (v.(ip := WriteCString(v.ip, addr.v6.value), ipKind := AF_INET6, oType := OUTPUT_NET), 0)
    else (v, ARGP_ERR_UNKNOWN)
  }

  /** `parse_port`: refused while the kind is a file. */
  function PortStep(v: Output, arg: Option<string>): (r: (Output, int))
    requires Buffers(v)
    ensures Buffers(r.0)
  {
    if v.oType == OUTPUT_FILE then (v, ARGP_ERR_UNKNOWN)
    else if arg.None? then (v, ARGP_ERR_UNKNOWN)
    else
      match PortOf(arg.value)
      case Some(n) => (v.(port := n, oType := OUTPUT_NET), 0)
      case None => (v, ARGP_ERR_UNKNOWN)
  }

  /** `validate_user_input`. */
  function ValidateStatus(v: Output): (err: int)
    requires Buffers(v)
  {
    if v.oType == OUTPUT_NONE then ARGP_ERR_UNKNOWN
    else if v.oType == OUTPUT_NET && v.ip[0] == '\0' then ARGP_ERR_UNKNOWN
    else if v.oType == OUTPUT_NET && (v.port < 1 || v.port > 65535) then ARGP_ERR_UNKNOWN
    else 0
  }

  /** One `parse_opt` call on the static struct, and its answer. */
  function Step(v: Output, e: Event): (r: (Output, int))
    requires Buffers(v)
    ensures Buffers(r.0)
  {
    match e.key
    case Opt(c) =>
      if c == 'f' then FileStep(v, e.arg)
      else if c == 'N' then IpStep(v, e.arg, e.addr)
      else if c == 's' then PortStep(v, e.arg)
      else (v, ARGP_ERR_UNKNOWN)
    case KeyInit => (InitialOutput(), 0)
    case KeyArg => (v, EX_USAGE)
    case KeyEnd => (v, ValidateStatus(v))
    case _ => (v, ARGP_ERR_UNKNOWN)
  }

  /** The calls in order, up to the first that ends the program; the answer is that call's, or 0. */
  function Run(v: Output, events: seq<Event>): (r: (Output, int))
    requires Buffers(v)
    ensures Buffers(r.0)
    decreases |events|
  {
    if events == [] then (v, 0)
    else
      var (w, err) := Step(v, events[0]);
      if !Continues(events[0].key, err) then (w, err) else Run(w, events[1..])
  }

  /**
   * What `user_args_user_must_parse_user_input` leaves in `global_user_input` and answers, for the
   * calls between ARGP_KEY_INIT and ARGP_KEY_END.
   */
  function Outcome(events: seq<Event>): (r: (Output, int))
    ensures Buffers(r.0)
  {
    var (w, err) := Run(InitialOutput(), events);
    if err != 0 then (w, err) else Step(w, Event(KeyEnd, None, Resolved(None, None)))
  }

  // ---------------------------------------------------------------------------------------------
  // What the rules mean

  /** With no option the records go to the default file. */
  lemma DefaultsAreFile()
    ensures Outcome([]).1 == 0 && Outcome([]).0.oType == OUTPUT_FILE
    ensures CString(Outcome([]).0.filePath) == DEFAULT_OUTPUT_FILE_PATH
  {
    DefaultPathShape();
    var z := ZeroOutput();
    var rest := z.filePath[|DEFAULT_OUTPUT_FILE_PATH|..];
    assert rest[0] == '\0';
    CStringAppend(DEFAULT_OUTPUT_FILE_PATH, rest);
  }

  /** A kind is chosen, and the network kind only ever comes with an address. */
  predicate HasAddress(v: Output)
    requires Buffers(v)
  {
    (v.oType == OUTPUT_FILE || v.oType == OUTPUT_NET) && (v.oType == OUTPUT_NET ==> v.ip[0] != '\0')
  }

  /** Every address text `inet_ntop` could write is non-empty. */
  predicate AllCanonical(events: seq<Event>)
  {
    forall k | 0 <= k < |events| :: Canonical(events[k].addr)
  }

  lemma StepKeepsAddress(v: Output, e: Event)
    requires Buffers(v) && HasAddress(v) && Canonical(e.addr)
    ensures HasAddress(Step(v, e).0)
  {
    if e.key == Opt('N') && e.arg.Some? {
      if e.addr.v4.Some? {
        assert Step(v, e).0.ip[0] == e.addr.v4.value[0];
      } else if e.addr.v6.Some? {
        assert Step(v, e).0.ip[0] == e.addr.v6.value[0];
      }
    }
  }

  /** Every call keeps a chosen kind, and a network kind keeps its address. */
  lemma {:induction false} RunKeepsAddress(v: Output, events: seq<Event>)
    requires Buffers(v) && HasAddress(v) && AllCanonical(events)
    ensures HasAddress(Run(v, events).0)
    decreases |events|
  {
    if events != [] {
      StepKeepsAddress(v, events[0]);
      var (w, err) := Step(v, events[0]);
      if Continues(events[0].key, err) {
        assert forall k | 0 <= k < |events| - 1 :: events[1..][k] == events[k + 1];
        RunKeepsAddress(w, events[1..]);
      }
    }
  }

  /** From a file kind, a run without an address option stays a file kind: -s alone is refused. */
  lemma {:induction false} NetNeedsAddressOption(v: Output, events: seq<Event>)
    requires Buffers(v) && v.oType == OUTPUT_FILE
    requires forall k | 0 <= k < |events| :: events[k].key != Opt('N')
    ensures Run(v, events).0.oType == OUTPUT_FILE
    decreases |events|
  {
    if events != [] {
      var (w, err) := Step(v, events[0]);
      assert w.oType == OUTPUT_FILE;
      if Continues(events[0].key, err) {
        assert forall k | 0 <= k < |events| - 1 :: events[1..][k] == events[k + 1];
        NetNeedsAddressOption(w, events[1..]);
      }
    }
  }

  /**
   * A parse whose addresses are canonical succeeds exactly when no call ended it and, for network
   * output, the port is in range: the address check of `validate_user_input` never fails.
   */
  lemma ParseMeaning(events: seq<Event>)
    requires AllCanonical(events)
    ensures Outcome(events).0 == Run(InitialOutput(), events).0
    ensures Outcome(events).1 == 0 <==> (Run(InitialOutput(), events).1 == 0
      && (Run(InitialOutput(), events).0.oType == OUTPUT_NET ==> 1 <= Run(InitialOutput(), events).0.port <= 65535))
  {
    var r := Run(InitialOutput(), events);
    RunKeepsAddress(InitialOutput(), events);
    assert HasAddress(r.0);
  }

  /** Without an address option the records never go to the network. */
  lemma FileWithoutAddress(events: seq<Event>)
    requires forall k | 0 <= k < |events| :: events[k].key != Opt('N')
    ensures Outcome(events).0.oType == OUTPUT_FILE
  {
    NetNeedsAddressOption(InitialOutput(), events);
  }

  /** A port with no address before it is refused. */
  lemma PortAloneRefused(port: string, addr: Resolved)
    ensures Outcome([Event(Opt('s'), Some(port), addr)]) == (InitialOutput(), ARGP_ERR_UNKNOWN)
  {
    assert Run(InitialOutput(), [Event(Opt('s'), Some(port), addr)]) == (InitialOutput(), ARGP_ERR_UNKNOWN);
  }

  /** An address with no port is refused at the end, when the port is still 0. */
  lemma AddressAloneRefused(ip: string, addr: Resolved)
    requires Canonical(addr) && addr.v4.Some?
    ensures Outcome([Event(Opt('N'), Some(ip), addr)]).1 == ARGP_ERR_UNKNOWN
  {
    var e := [Event(Opt('N'), Some(ip), addr)];
    var s1 := Step(InitialOutput(), e[0]);
    assert s1.1 == 0 && s1.0.oType == OUTPUT_NET && s1.0.port == 0;
    assert e[1..] == [];
    assert Run(InitialOutput(), e) == s1;
  }

  /** An address then a port give network output to both. */
  lemma AddressThenPortParse(ip: string, addr: Resolved, port: string)
    requires Canonical(addr) && addr.v4.Some? && PortOf(port).Some?
    ensures var (w, err) := Outcome([Event(Opt('N'), Some(ip), addr), Event(Opt('s'), Some(port), addr)]);
      err == 0 && w.oType == OUTPUT_NET && w.ipKind == AF_INET
      && CString(w.ip) == addr.v4.value && w.port == PortOf(port).value
  {
    var e := [Event(Opt('N'), Some(ip), addr), Event(Opt('s'), Some(port), addr)];
    var z := InitialOutput();
    var s1 := Step(z, e[0]);
    assert s1.1 == 0 && s1.0.oType == OUTPUT_NET && s1.0.ipKind == AF_INET && s1.0.ip == WriteCString(z.ip, addr.v4.value);
    var s2 := Step(s1.0, e[1]);
    assert s2.1 == 0 && s2.0 == s1.0.(port := PortOf(port).value);
    assert e[1..] == [e[1]] && e[1..][1..] == [];
    assert Run(s1.0, e[1..]) == s2;
    assert Run(z, e) == s2;
    assert s2.0.ip[0] == addr.v4.value[0];
    WriteCStringReadsBack(z.ip, addr.v4.value);
  }

  /** A file option after a network choice switches back to file output. */
  lemma FileOptionOverridesNet(v: Output, path: string, addr: Resolved)
    requires Buffers(v) && v.oType == OUTPUT_NET && 0 < |path| < PATH_MAX && NoNul(path)
    ensures var (w, err) := Step(v, Event(Opt('f'), Some(path), addr));
      err == 0 && w.oType == OUTPUT_FILE && CString(w.filePath) == path && ValidateStatus(w) == 0
  {
    WriteCStringReadsBack(v.filePath, path);
  }

  // ---------------------------------------------------------------------------------------------
  // The state

  /** `init_user_input` on the static struct. */
  method InitUserInput(g: UserInput)
    requires g.Valid()
    modifies g.Repr()
    ensures g.Valid() && g.Value() == InitialOutput()
  {
    DefaultPathShape();
    g.Zero();
    g.oType := OUTPUT_FILE;
    forall i | 0 <= i < |DEFAULT_OUTPUT_FILE_PATH| {
      g.filePath[i] := DEFAULT_OUTPUT_FILE_PATH[i];
    }
  }

  /** `validate_user_input`. */
  method ValidateUserInput(g: UserInput) returns (err: int)
    requires g.Valid()
    ensures err == ValidateStatus(g.Value())
  {
    if g.oType == OUTPUT_NONE {
      return ARGP_ERR_UNKNOWN;
    }
    if g.oType == OUTPUT_NET {
      if g.ip[0] == '\0' {
        return ARGP_ERR_UNKNOWN;
      }
      if g.port < 1 || g.port > 65535 {
        return ARGP_ERR_UNKNOWN;
      }
    }
    return 0;
  }

  /** `parse_arg_output_file`. */
  method ParseArgOutputFile(g: UserInput, arg: Option<string>) returns (err: int)
    requires g.Valid()
    modifies g, g.filePath
    ensures g.Valid() && (g.Value(), err) == FileStep(old(g.Value()), arg)
  {
    if arg.None? {
      return ARGP_ERR_UNKNOWN;
    }
    var n := SnprintfString(g.filePath, arg.value);
    if n >= PATH_MAX {
      return ARGP_ERR_UNKNOWN;
    }
    g.oType := OUTPUT_FILE;
    return 0;
  }

  /** `parse_ip`, with the address conversions given. */
  method ParseIp(g: UserInput, arg: Option<string>, addr: Resolved) returns (err: int)
    requires g.Valid()
    modifies g, g.ip
    ensures g.Valid() && (g.Value(), err) == IpStep(old(g.Value()), arg, addr)
  {
    if arg.None? {
      return ARGP_ERR_UNKNOWN;
    }
    if addr.v4.Some? {
      var _ := SnprintfString(g.ip, addr.v4.value);
      g.ipKind := AF_INET;
      g.oType := OUTPUT_NET;
      return 0;
    }
    if addr.v6.Some? {
      var _ := SnprintfString(g.ip, addr.v6.value);
      g.ipKind := AF_INET6;
      g.oType := OUTPUT_NET;
      return 0;
    }
    return ARGP_ERR_UNKNOWN;
  }

  /** `parse_port`. */
  method ParsePort(g: UserInput, arg: Option<string>) returns (err: int)
    requires g.Valid()
    modifies g
    ensures g.Valid() && (g.Value(), err) == PortStep(old(g.Value()), arg)
  {
    if g.oType == OUTPUT_FILE {
      return ARGP_ERR_UNKNOWN;
    }
    if arg.None? {
      return ARGP_ERR_UNKNOWN;
    }
    var c := StrToL(arg.value);
    if c.end != |arg.value| || c.outOfRange || c.value < 1 || c.value > 65535 {
      return ARGP_ERR_UNKNOWN;
    }
    g.port := c.value;
    g.oType := OUTPUT_NET;
    return 0;
  }

  /** `parse_opt` on the static struct. */
  method ParseOpt(g: UserInput, e: Event) returns (err: int)
    requires g.Valid()
    modifies g.Repr()
    ensures g.Valid() && (g.Value(), err) == Step(old(g.Value()), e)
  {
    match e.key
    case Opt(c) =>
      if c == 'f' {
        err := ParseArgOutputFile(g, e.arg);
      } else if c == 'N' {
        err := ParseIp(g, e.arg, e.addr);
      } else if c == 's' {
        err := ParsePort(g, e.arg);
      } else {
        err := ARGP_ERR_UNKNOWN;
      }
    case KeyInit =>
      InitUserInput(g);
      err := 0;
    case KeyArg =>
      err := EX_USAGE;
    case KeyEnd =>
      err := ValidateUserInput(g);
    case KeyError =>
      err := ARGP_ERR_UNKNOWN;
    case KeyOther =>
      err := ARGP_ERR_UNKNOWN;
  }

  /** argp's calls in order, up to the first that ends the program. */
  method RunEvents(g: UserInput, events: seq<Event>) returns (err: int)
    requires g.Valid()
    modifies g.Repr()
    ensures g.Valid() && (g.Value(), err) == Run(old(g.Value()), events)
  {
    var i := 0;
    while i < |events|
      invariant 0 <= i <= |events| && g.Valid()
      invariant Run(g.Value(), events[i..]) == Run(old(g.Value()), events)
    {
      assert events[i..][1..] == events[i + 1..];
      err := ParseOpt(g, events[i]);
      if !Continues(events[i].key, err) {
        return;
      }
      i := i + 1;
    }
    assert events[i..] == [];
    return 0;
  }

  /** `user_args_user_must_parse_user_input`: ARGP_KEY_INIT, the options, ARGP_KEY_END. */
  method MustParseUserInput(g: UserInput, events: seq<Event>) returns (err: int)
    requires g.Valid()
    modifies g.Repr()
    ensures g.Valid() && (g.Value(), err) == Outcome(events)
  {
    err := ParseOpt(g, Event(KeyInit, None, Resolved(None, None)));
    err := RunEvents(g, events);
    if err != 0 {
      return;
    }
    err := ParseOpt(g, Event(KeyEnd, None, Resolved(None, None)));
  }
}
