/**
 * The first-generation control parser (src/user/args/control.c). `init_control_input` sets the
 * defaults, then argp calls `parse_opt` once per option; each call updates the struct in place
 * and answers 0 or ARGP_ERR_UNKNOWN. `argp_parse` runs with flags 0, so a refused mode or list,
 * which first calls `argp_failure(state, -1, -1, …)`, ends the program with status -1, and a
 * positional argument ends it through `argp_usage`.
 */
module ArgsControl {
  import opened Wrappers
  import opened CStd
  import opened Control

  /** argp's "unknown key" status, E2BIG on Linux. */
  const ARGP_ERR_UNKNOWN: int := 7

  /** `init_control_input`: the lock FREE, every mode IGNORE, every length 0; the array slots keep their values. */
  function Defaults(v: ControlValue): (r: ControlValue)
    ensures r.lock == FREE
    ensures forall f: ModeField :: r.Mode(f) == IGNORE
    ensures forall l: ListField :: r.Len(l) == 0 && r.Slots(l) == v.Slots(l)
  {
    v.(lock := FREE, globalMode := IGNORE, uidMode := IGNORE, uidsLen := 0, pidMode := IGNORE,
      pidsLen := 0, ppidMode := IGNORE, ppidsLen := 0, netioMode := IGNORE)
  }

  /** The letters of the mode options of this parser: -g -u -p -k -n. */
  function ArgsModeOption(c: char): (f: Option<ModeField>)
    ensures f.Some? <==> c in {'g', 'u', 'p', 'k', 'n'}
  {
    if c == 'g' then Some(GlobalMode)
    else if c == 'u' then Some(UidMode)
    else if c == 'p' then Some(PidMode)
    else if c == 'k' then Some(PpidMode)
    else if c == 'n' then Some(NetioMode)
    else None
  }

  /** The letters of the list options of this parser: -U -P -K. */
  function ArgsListOption(c: char): (f: Option<ListField>)
    ensures f.Some? <==> c in {'U', 'P', 'K'}
  {
    if c == 'U' then Some(Uids)
    else if c == 'P' then Some(Pids)
    else if c == 'K' then Some(Ppids)
    else None
  }

  /**
   * What one `parse_opt` call does to the struct, and the status it answers.  A positional argument
   * calls `argp_usage`, which ends the program with EX_USAGE; here it stops the run with that status.
   */
  function Step(v: ControlValue, key: Key, arg: string): (r: (ControlValue, int))
    requires WellSized(v)
    ensures WellSized(r.0)
    ensures r.1 == 0 <==>
              key == KeyEnd
              || (key.Opt? && ArgsModeOption(key.c).Some? && ModeOf(arg).Some?)
              || (key.Opt? && ArgsListOption(key.c).Some? && ParseList(arg, MAX_LIST_ITEMS).ok)
    ensures r.1 != 0 ==> r.1 == ARGP_ERR_UNKNOWN || (key == KeyArg && r.1 == EX_USAGE)
    ensures !(key.Opt? && ArgsListOption(key.c).Some?) && r.1 != 0 ==> r.0 == v
  {
    match key
    case Opt(c) =>
      if ArgsModeOption(c).Some? then
        match ModeOf(arg)
        case Some(m) => (v.WithMode(ArgsModeOption(c).value, m), 0)
        case None => (v, ARGP_ERR_UNKNOWN)
      else if ArgsListOption(c).Some? then
        var ok := ParseList(arg, MAX_LIST_ITEMS).ok;
        (AfterList(v, ArgsListOption(c).value, arg), if ok then 0 else ARGP_ERR_UNKNOWN)
      else (v, ARGP_ERR_UNKNOWN)
    case KeyArg => (v, EX_USAGE)
    case KeyEnd => (v, 0)
    case _ => (v, ARGP_ERR_UNKNOWN)
  }

  /** How a parse ends: `argp_parse` returns a status, or the program exits with one. */
  datatype ParseEnd = ParseReturned(status: int) | ProgramExit(status: int)

  /**
   * What argp makes of a call's answer: None when it goes on. A refused mode or list has already
   * ended the program through `argp_failure(state, -1, …)`; a positional argument ends it through
   * `argp_usage`, and an option the parser does not know through `argp_error`, both with EX_USAGE;
   * an error from ARGP_KEY_END is what `argp_parse` returns; ARGP_ERR_UNKNOWN answered for a special
   * key (ARGP_KEY_INIT, ARGP_KEY_ERROR and the others) is ignored.
   */
  function Verdict(key: Key, err: int): (e: Option<ParseEnd>)
    ensures err == 0 ==> e.None?
    ensures e.Some? && key != KeyEnd ==> e.value == ProgramExit(-1) || e.value == ProgramExit(EX_USAGE)
  {
    if err == 0 then None
    else match key
      case Opt(c) =>
        if ArgsModeOption(c).Some? || ArgsListOption(c).Some? then Some(ProgramExit(-1)) else Some(ProgramExit(EX_USAGE))
      case KeyArg => Some(ProgramExit(EX_USAGE))
      case KeyEnd => Some(ParseReturned(err))
      case _ => None
  }

  /**
   * The options applied in order, up to the first call that ends the program; a parse that gets
   * through every call returns 0.
   */
  function Run(v: ControlValue, opts: seq<(Key, string)>): (r: (ControlValue, ParseEnd))
    requires WellSized(v)
    ensures WellSized(r.0)
    ensures r.1 == ParseReturned(0) || r.1 == ProgramExit(-1) || r.1 == ProgramExit(EX_USAGE)
    decreases |opts|
  {
    if opts == [] then (v, ParseReturned(0))
    else
      var (w, err) := Step(v, opts[0].0, opts[0].1);
      match Verdict(opts[0].0, err)
      case Some(e) => (w, e)
      case None => Run(w, opts[1..])
  }

  /** A refused mode or list option ends the program with status -1, whatever follows it. */
  lemma RefusedOptionExits(v: ControlValue, c: char, arg: string, rest: seq<(Key, string)>)
    requires WellSized(v)
    requires (ArgsModeOption(c).Some? && ModeOf(arg).None?)
             || (ArgsListOption(c).Some? && !ParseList(arg, MAX_LIST_ITEMS).ok)
    ensures Run(v, [(Opt(c), arg)] + rest) == (Step(v, Opt(c), arg).0, ProgramExit(-1))
  {
    assert ([(Opt(c), arg)] + rest)[0] == (Opt(c), arg);
  }

  /** The special keys the parser does not handle are passed over: ARGP_ERR_UNKNOWN for them is ignored. */
  lemma SpecialKeysIgnored(v: ControlValue, key: Key, rest: seq<(Key, string)>)
    requires WellSized(v) && (key == KeyInit || key == KeyError || key == KeyOther)
    ensures Step(v, key, "") == (v, ARGP_ERR_UNKNOWN)
    ensures Run(v, [(key, "")] + rest) == Run(v, rest)
  {
    assert ([(key, "")] + rest)[1..] == rest;
  }

  /** A mode option is accepted exactly for a prefix of "ignore" or "capture"; a rejected one changes nothing. */
  lemma ModeStepMeaning(v: ControlValue, c: char, arg: string)
    requires WellSized(v) && ArgsModeOption(c).Some?
    ensures Step(v, Opt(c), arg).1 == 0 <==> arg <= "ignore" || arg <= "capture"
    ensures arg <= "ignore" ==> Step(v, Opt(c), arg).0.Mode(ArgsModeOption(c).value) == IGNORE
    ensures !(arg <= "ignore") && arg <= "capture" ==> Step(v, Opt(c), arg).0.Mode(ArgsModeOption(c).value) == CAPTURE
    ensures Step(v, Opt(c), arg).1 != 0 ==> Step(v, Opt(c), arg) == (v, ARGP_ERR_UNKNOWN)
  {
  }

  /** A list option answers 0 exactly when the list is accepted; a rejected list keeps its length. */
  lemma ListStepMeaning(v: ControlValue, c: char, arg: string)
    requires WellSized(v) && ArgsListOption(c).Some?
    ensures var ts := Tokens(arg, {','}); var f := ArgsListOption(c).value;
      (Step(v, Opt(c), arg).1 == 0 <==> |ts| <= MAX_LIST_ITEMS && forall k | 0 <= k < |ts| :: ItemOf(ts[k]).valid)
      && (Step(v, Opt(c), arg).1 == 0 ==> Step(v, Opt(c), arg).0.Len(f) == |ts|)
      && (Step(v, Opt(c), arg).1 != 0 ==> Step(v, Opt(c), arg).0.Len(f) == v.Len(f))
  {
    ListOptionMeaning(v, ArgsListOption(c).value, arg);
  }

  /**
   * A mode that no option in `opts` names keeps the value it had before parsing, whatever the
   * options do to the others.
   */
  lemma {:induction false} RunKeepsUnnamedMode(v: ControlValue, opts: seq<(Key, string)>, f: ModeField)
    requires WellSized(v)
    requires forall k | 0 <= k < |opts| :: opts[k].0.Opt? ==> ArgsModeOption(opts[k].0.c) != Some(f)
    ensures Run(v, opts).0.Mode(f) == v.Mode(f)
    decreases |opts|
  {
    if opts != [] {
      var (w, err) := Step(v, opts[0].0, opts[0].1);
      assert w.Mode(f) == v.Mode(f);
      if Verdict(opts[0].0, err).None? {
        assert forall k | 0 <= k < |opts| - 1 :: opts[1..][k] == opts[k + 1];
        RunKeepsUnnamedMode(w, opts[1..], f);
      }
    }
  }

  /** `init_control_input`. */
  method InitControlInput(input: ControlInput)
    modifies input
    ensures input.Value() == Defaults(old(input.Value()))
  {
    input.lock := FREE;
    input.globalMode := IGNORE;
    input.uidMode := IGNORE;
    input.uidsLen := 0;
    input.pidMode := IGNORE;
    input.pidsLen := 0;
    input.ppidMode := IGNORE;
    input.ppidsLen := 0;
    input.netioMode := IGNORE;
  }

  /** `parse_mode`: the mode named by the word, or ARGP_ERR_UNKNOWN with the field untouched. */
  method ParseMode(input: ControlInput, f: ModeField, s: string) returns (err: int)
    modifies input
    ensures ModeOf(s).Some? ==> err == 0 && input.Value() == old(input.Value()).WithMode(f, ModeOf(s).value)
    ensures ModeOf(s).None? ==> err == ARGP_ERR_UNKNOWN && input.Value() == old(input.Value())
  {
    if FindStringIndex("ignore", s) == 0 && |s| <= |"ignore"| {
      input.SetMode(f, IGNORE);
      return 0;
    } else if FindStringIndex("capture", s) == 0 && |s| <= |"capture"| {
      input.SetMode(f, CAPTURE);
      return 0;
    } else {
      return ARGP_ERR_UNKNOWN;
    }
  }

  /** `parse_int_list` on one of the three lists; the length is stored only on success. */
  method ParseIntList(input: ControlInput, f: ListField, s: string) returns (err: int)
    requires input.Valid()
    modifies input, input.Array(f)
    ensures input.Valid()
    ensures input.Value() == AfterList(old(input.Value()), f, s)
    ensures err == if ParseList(s, MAX_LIST_ITEMS).ok then 0 else ARGP_ERR_UNKNOWN
  {
    var ok, len := FillIntList(s, input.Array(f), MAX_LIST_ITEMS);
    if !ok {
      return ARGP_ERR_UNKNOWN;
    }
    input.SetLen(f, len);
    return 0;
  }

  /** `validate_control_input`: every struct is accepted. */
  method ValidateControlInput(input: ControlInput) returns (err: int)
    ensures err == 0
  {
    return 0;
  }

  /** `parse_opt`: one option's update of the struct, and its status. */
  method ParseOpt(input: ControlInput, key: Key, arg: string) returns (err: int)
    requires input.Valid()
    modifies input.Repr()
    ensures input.Valid()
    ensures (input.Value(), err) == Step(old(input.Value()), key, arg)
  {
    match key
    case Opt(c) =>
      if ArgsModeOption(c).Some? {
        err := ParseMode(input, ArgsModeOption(c).value, arg);
      } else if ArgsListOption(c).Some? {
        err := ParseIntList(input, ArgsListOption(c).value, arg);
      } else {
        err := ARGP_ERR_UNKNOWN;
      }
    case KeyArg =>
      err := EX_USAGE;
    case KeyEnd =>
      err := ValidateControlInput(input);
    case _ =>
      err := ARGP_ERR_UNKNOWN;
  }

  /**
   * `user_args_control_must_parse_control_input`: the defaults, then argp's calls in order until one
   * ends the program; the struct as the parse leaves it, and how the parse ends.
   */
  method MustParse(dst: ControlInput, opts: seq<(Key, string)>) returns (end: ParseEnd)
    requires dst.Valid()
    modifies dst.Repr()
    ensures dst.Valid()
    ensures (dst.Value(), end) == Run(Defaults(old(dst.Value())), opts)
  {
    InitControlInput(dst);
    var i := 0;
    while i < |opts|
      invariant 0 <= i <= |opts| && dst.Valid()
      invariant Run(dst.Value(), opts[i..]) == Run(Defaults(old(dst.Value())), opts)
    {
      assert opts[i..][1..] == opts[i + 1..];
      var err := ParseOpt(dst, opts[i].0, opts[i].1);
      var verdict := Verdict(opts[i].0, err);
      if verdict.Some? {
        return verdict.value;
      }
      i := i + 1;
    }
    assert opts[i..] == [];
    end := ParseReturned(0);
  }
}
