/**
 * The second-generation control parser (src/user/arg/control.c). Parsing works on a static
 * `arg_control_with_parse_state` (a parse state and a control struct). argp's first call
 * (ARGP_KEY_INIT) loads the struct from a static initial value. Every option then updates the
 * struct in place, and a rejected option records exit status -1 in the parse state instead of
 * failing the call. At the end the whole static struct is copied to the caller. The
 * `arg_parse_state` operations (src/user/arg/parse_state.c) are not part of this model; they are
 * taken to behave as their copies in src/user/args/helper.c.
 */
module ArgControl {
  import opened Wrappers
  import opened CStd
  import opened ParseState
  import opened Control

  /** The value of an `arg_control_with_parse_state`. */
  datatype Parsed = Parsed(exit: int, code: int, control: ControlValue)

  /** The letters of the clear options: -X -Y -Z. */
  function ClearOption(c: char): (f: Option<ListField>)
    ensures f.Some? <==> c in {'X', 'Y', 'Z'}
  {
    if c == 'X' then Some(Uids)
    else if c == 'Y' then Some(Pids)
    else if c == 'Z' then Some(Ppids)
    else None
  }

  /** What one `parse_opt` call does, given the static initial value; the call itself always answers 0. */
  function Step(p: Parsed, initial: ControlValue, key: Key, arg: string): (q: Parsed)
    requires WellSized(p.control) && WellSized(initial)
    ensures WellSized(q.control)
  {
    match key
    case Opt(c) =>
      if c in {'v', '?', 'u'} then p.(exit := 1, code := 0)
      else if ModeOption(c).Some? then
        match ModeOf(arg)
        case Some(m) => p.(control := p.control.WithMode(ModeOption(c).value, m))
        case None => p.(exit := 1, code := -1)
      else if ListOption(c).Some? then
        var q := p.(control := AfterList(p.control, ListOption(c).value, arg));
        if ParseList(arg, MAX_LIST_ITEMS).ok then q else q.(exit := 1, code := -1)
      else if ClearOption(c).Some? then
        p.(control := p.control.WithList(ClearOption(c).value, Zeros(MAX_LIST_ITEMS), 0))
      else p
    case KeyInit => Parsed(0, 0, initial)
    case KeyError => p.(exit := 1, code := -1)
    case KeyArg => p.(exit := 1, code := -1)
    case KeyEnd => p
    case KeyOther => p
  }

  /** The exit fields as the parser leaves them: no exit asked for, or an exit with status 0 or -1. */
  predicate Settled(p: Parsed)
  {
    (p.exit == 0 && p.code == 0) || (p.exit == 1 && (p.code == 0 || p.code == -1))
  }

  /** The parser calls in order; none of them stops the parse. */
  function Run(p: Parsed, initial: ControlValue, events: seq<(Key, string)>): (q: Parsed)
    requires WellSized(p.control) && WellSized(initial)
    ensures WellSized(q.control)
    ensures Settled(p) ==> Settled(q)
    decreases |events|
  {
    if events == [] then p
    else Run(Step(p, initial, events[0].0, events[0].1), initial, events[1..])
  }

  /**
   * What `arg_control_parse` hands back for the initial value `initial` (the all-zero struct for
   * NULL) and the parser calls argp makes between ARGP_KEY_INIT and ARGP_KEY_END.
   */
  function Outcome(initial: Option<ControlValue>, events: seq<(Key, string)>): (q: Parsed)
    requires initial.Some? ==> WellSized(initial.value)
    ensures WellSized(q.control)
    ensures (q.exit == 0 && q.code == 0) || (q.exit == 1 && (q.code == 0 || q.code == -1))
  {
    var init := if initial.Some? then initial.value else ZeroValue();
    Run(Parsed(0, 0, init), init, events)
  }

  // ---------------------------------------------------------------------------------------------
  // What the option rules mean

  /** help, usage and version stop the parse with status 0 and leave the struct alone. */
  lemma InfoOptionsExitCleanly(p: Parsed, initial: ControlValue, c: char, arg: string)
    requires WellSized(p.control) && WellSized(initial) && c in {'v', '?', 'u'}
    ensures Step(p, initial, Opt(c), arg) == Parsed(1, 0, p.control)
  {
  }

  /** A positional argument or an argp error stops the parse with status -1 and leaves the struct alone. */
  lemma ArgumentsAndErrorsFail(p: Parsed, initial: ControlValue, key: Key, arg: string)
    requires WellSized(p.control) && WellSized(initial) && (key == KeyArg || key == KeyError)
    ensures Step(p, initial, key, arg) == Parsed(1, -1, p.control)
  {
  }

  /**
   * A mode option sets its mode for a prefix of "ignore" or "capture"; any other word stops the
   * parse with status -1 and leaves the mode as it was.
   */
  lemma ModeOptionMeaning(p: Parsed, initial: ControlValue, c: char, arg: string)
    requires WellSized(p.control) && WellSized(initial) && ModeOption(c).Some?
    ensures var q := Step(p, initial, Opt(c), arg); var f := ModeOption(c).value;
      (arg <= "ignore" ==> q == p.(control := p.control.WithMode(f, IGNORE)))
      && (!(arg <= "ignore") && arg <= "capture" ==> q == p.(control := p.control.WithMode(f, CAPTURE)))
      && (!(arg <= "ignore") && !(arg <= "capture") ==> q == p.(exit := 1, code := -1))
  {
  }

  /**
   * A list option with at most ten non-negative decimal tokens stores them and their number; any
   * other list stops the parse with status -1 and keeps the old length.
   */
  lemma ListOptionStatus(p: Parsed, initial: ControlValue, c: char, arg: string)
    requires WellSized(p.control) && WellSized(initial) && ListOption(c).Some?
    ensures var q := Step(p, initial, Opt(c), arg); var f := ListOption(c).value;
      var ts := Tokens(arg, {','});
      var accepted := |ts| <= MAX_LIST_ITEMS && forall k | 0 <= k < |ts| :: ItemOf(ts[k]).valid;
      (accepted ==> (q.exit == p.exit && q.code == p.code && q.control.Len(f) == |ts|
        && q.control.Slots(f)[..|ts|] == Values(ItemsOf(ts))))
      && (!accepted ==> q.exit == 1 && q.code == -1 && q.control.Len(f) == p.control.Len(f))
  {
    ListOptionMeaning(p.control, ListOption(c).value, arg);
  }

  /** A clear option empties its list and zeroes all ten slots. */
  lemma ClearOptionMeaning(p: Parsed, initial: ControlValue, c: char, arg: string)
    requires WellSized(p.control) && WellSized(initial) && ClearOption(c).Some?
    ensures var q := Step(p, initial, Opt(c), arg); var f := ClearOption(c).value;
      q.control.Len(f) == 0 && q.control.Slots(f) == Zeros(MAX_LIST_ITEMS) && q.exit == p.exit && q.code == p.code
  {
  }

  /** A mode no option names ends the parse with the value the initial struct gave it. */
  lemma {:induction false} RunKeepsUnnamedMode(p: Parsed, initial: ControlValue, events: seq<(Key, string)>, f: ModeField)
    requires WellSized(p.control) && WellSized(initial) && p.control.Mode(f) == initial.Mode(f)
    requires forall k | 0 <= k < |events| :: events[k].0.Opt? ==> ModeOption(events[k].0.c) != Some(f)
    ensures Run(p, initial, events).control.Mode(f) == initial.Mode(f)
    decreases |events|
  {
    if events != [] {
      var q := Step(p, initial, events[0].0, events[0].1);
      assert q.control.Mode(f) == initial.Mode(f);
      assert forall k | 0 <= k < |events| - 1 :: events[1..][k] == events[k + 1];
      RunKeepsUnnamedMode(q, initial, events[1..], f);
    }
  }

  /** Options that are not given keep their initial value: here a mode with no option naming it. */
  lemma OutcomeKeepsUnnamedMode(initial: Option<ControlValue>, events: seq<(Key, string)>, f: ModeField)
    requires initial.Some? ==> WellSized(initial.value)
    requires forall k | 0 <= k < |events| :: events[k].0.Opt? ==> ModeOption(events[k].0.c) != Some(f)
    ensures Outcome(initial, events).control.Mode(f) == (if initial.Some? then initial.value.Mode(f) else NOT_SET)
  {
    var init := if initial.Some? then initial.value else ZeroValue();
    RunKeepsUnnamedMode(Parsed(0, 0, init), init, events, f);
  }

  /** Once the exit flag is raised no later call lowers it (ARGP_KEY_INIT aside). */
  lemma {:induction false} ExitSticks(p: Parsed, initial: ControlValue, events: seq<(Key, string)>)
    requires WellSized(p.control) && WellSized(initial) && p.exit == 1
    requires forall k | 0 <= k < |events| :: events[k].0 != KeyInit
    ensures Run(p, initial, events).exit == 1
    decreases |events|
  {
    if events != [] {
      assert events[0] == events[0];
      assert forall k | 0 <= k < |events| - 1 :: events[1..][k] == events[k + 1];
      ExitSticks(Step(p, initial, events[0].0, events[0].1), initial, events[1..]);
    }
  }

  // ---------------------------------------------------------------------------------------------
  // The state

  /** `struct arg_control_with_parse_state`. */
  class WithParseState {
    const parseState: State
    const arg: ControlInput

    ghost predicate Valid()
      reads this, arg
    {
      arg.Valid()
    }

    ghost function Repr(): set<object>
      reads this, arg
    {
      {parseState} + arg.Repr()
    }

    function Value(): Parsed
      reads this, parseState, arg, arg.uids, arg.pids, arg.ppids
    {
      Parsed(parseState.exit, parseState.code, arg.Value())
    }

    constructor ()
      ensures Valid() && fresh(Repr()) && Value() == Parsed(0, 0, ZeroValue())
    {
      parseState := new State();
      arg := new ControlInput();
    }

    /** `memcpy` of a whole `arg_control_with_parse_state`. */
    method CopyFrom(src: WithParseState)
      requires Valid() && src.Valid() && Repr() !! src.Repr()
      modifies Repr()
      ensures Valid() && Value() == old(src.Value())
    {
      arg.CopyFrom(src.arg);
      parseState.exit := src.parseState.exit;
      parseState.code := src.parseState.code;
    }
  }

  /** The two statics of the file: the parse target and the initial value. */
  class Globals {
    const parsed: WithParseState
    const initialValue: ControlInput

    ghost predicate Valid()
      reads this, parsed, parsed.arg, initialValue
    {
      parsed.Valid() && initialValue.Valid() && parsed.arg.Repr() !! initialValue.Repr()
    }

    ghost function Repr(): set<object>
      reads this, parsed, parsed.arg, initialValue
    {
      parsed.Repr() + initialValue.Repr()
    }

    constructor ()
      ensures Valid() && fresh(Repr())
    {
      parsed := new WithParseState();
      initialValue := new ControlInput();
    }
  }

  /** `set_global_initial_value`: a copy of `src`, or the all-zero struct for NULL. */
  method SetGlobalInitialValue(g: Globals, src: ControlInput?)
    requires g.Valid() && (src != null ==> src.Valid() && src.Repr() !! g.initialValue.Repr())
    modifies g.initialValue.Repr()
    ensures g.Valid()
    ensures g.initialValue.Value() == if src == null then ZeroValue() else old(src.Value())
  {
    if src == null {
      g.initialValue.Zero();
    } else {
      g.initialValue.CopyFrom(src);
    }
  }

  /** `initialize_arg_with_parse_state` on the static target: the initial value, status 0, no exit. */
  method InitializeArgWithParseState(g: Globals)
    requires g.Valid()
    modifies g.parsed.Repr()
    ensures g.Valid()
    ensures g.parsed.Value() == Parsed(0, 0, old(g.initialValue.Value()))
  {
    g.parsed.arg.CopyFrom(g.initialValue);
    Init(g.parsed.parseState);
  }

  /** `parse_mode`: the mode named by the word, or exit status -1 with the mode untouched. */
  method ParseMode(src: WithParseState, f: ModeField, s: string)
    modifies src.parseState, src.arg
    ensures ModeOf(s).Some? ==> src.Value() == old(src.Value()).(control := old(src.Value()).control.WithMode(f, ModeOf(s).value))
    ensures ModeOf(s).None? ==> src.Value() == old(src.Value()).(exit := 1, code := -1)
  {
    if FindStringIndex("ignore", s) == 0 && |s| <= |"ignore"| {
      src.arg.SetMode(f, IGNORE);
    } else if FindStringIndex("capture", s) == 0 && |s| <= |"capture"| {
      src.arg.SetMode(f, CAPTURE);
    } else {
      SetExitError(src.parseState, -1);
    }
  }

  /** `parse_int_list`: the front slots are overwritten; the length is stored only on success, else exit -1. */
  method ParseIntList(src: WithParseState, f: ListField, s: string)
    requires src.Valid()
    modifies src.parseState, src.arg, src.arg.Array(f)
    ensures src.Valid()
    ensures var q := old(src.Value()).(control := AfterList(old(src.Value()).control, f, s));
      src.Value() == if ParseList(s, MAX_LIST_ITEMS).ok then q else q.(exit := 1, code := -1)
  {
    var ok, len := FillIntList(s, src.arg.Array(f), MAX_LIST_ITEMS);
    if !ok {
      SetExitError(src.parseState, -1);
      return;
    }
    src.arg.SetLen(f, len);
  }

  /** `clear_id_list`: the length 0 and all ten slots zeroed. */
  method ClearIdList(src: WithParseState, f: ListField)
    requires src.Valid()
    modifies src.arg, src.arg.Array(f)
    ensures src.Valid()
    ensures src.Value() == old(src.Value()).(control := old(src.Value()).control.WithList(f, Zeros(MAX_LIST_ITEMS), 0))
  {
    src.arg.SetLen(f, 0);
    ZeroSlots(src.arg.Array(f));
  }

  /** `parse_opt`: one parser call on the static target; it always answers 0. */
  method ParseOpt(g: Globals, key: Key, arg: string) returns (r: int)
    requires g.Valid()
    modifies g.parsed.Repr()
    ensures g.Valid()
    ensures r == 0
    ensures g.parsed.Value() == Step(old(g.parsed.Value()), old(g.initialValue.Value()), key, arg)
  {
    var src := g.parsed;
    r := 0;
    match key
    case Opt(c) =>
      if c in {'v', '?', 'u'} {
        SetExitNoError(src.parseState);
      } else if ModeOption(c).Some? {
        ParseMode(src, ModeOption(c).value, arg);
      } else if ListOption(c).Some? {
        ParseIntList(src, ListOption(c).value, arg);
      } else if ClearOption(c).Some? {
        ClearIdList(src, ClearOption(c).value);
      }
    case KeyInit =>
      InitializeArgWithParseState(g);
    case KeyEnd =>
    case KeyError =>
      SetExitError(src.parseState, -1);
    case KeyArg =>
      SetExitError(src.parseState, -1);
    case KeyOther =>
  }

  /** argp's parser calls for the options, in order, on the static target. */
  method RunEvents(g: Globals, events: seq<(Key, string)>)
    requires g.Valid()
    modifies g.parsed.Repr()
    ensures g.Valid()
    ensures g.parsed.Value() == Run(old(g.parsed.Value()), old(g.initialValue.Value()), events)
  {
    ghost var init := g.initialValue.Value();
    var i := 0;
    while i < |events|
      invariant 0 <= i <= |events| && g.Valid() && g.initialValue.Value() == init
      invariant Run(g.parsed.Value(), init, events[i..]) == Run(old(g.parsed.Value()), init, events)
      modifies g.parsed.Repr()
    {
      assert events[i..][1..] == events[i + 1..];
      var _ := ParseOpt(g, events[i].0, events[i].1);
      i := i + 1;
    }
    assert events[i..] == [];
  }

  /**
   * `arg_control_parse`: -1 for a NULL target; otherwise the initial value is stored, argp's calls
   * run on the static target (ARGP_KEY_INIT first, ARGP_KEY_END last), the result is copied to
   * `dst`, and the answer is 0 whatever the options were.
   */
  method Parse(g: Globals, dst: WithParseState?, initial: ControlInput?, events: seq<(Key, string)>) returns (r: int)
    requires g.Valid()
    requires dst != null ==> dst.Valid() && dst.Repr() !! g.Repr()
    requires initial != null ==> initial.Valid() && initial.Repr() !! g.initialValue.Repr()
    modifies g.Repr(), if dst == null then {} else dst.Repr()
    ensures dst == null ==> r == -1 && unchanged(g.Repr())
    ensures dst != null ==> (r == 0 && dst.Value() ==
      Outcome(if initial == null then None else Some(old(initial.Value())), events))
  {
    if dst == null {
      return -1;
    }
    SetGlobalInitialValue(g, initial);
    ghost var init := g.initialValue.Value();
    r := ParseOpt(g, KeyInit, "");
    assert g.parsed.Value() == Parsed(0, 0, init);
    RunEvents(g, events);
    ghost var q := g.parsed.Value();
    assert q == Outcome(if initial == null then None else Some(old(initial.Value())), events);
    r := ParseOpt(g, KeyEnd, "");
    dst.CopyFrom(g.parsed);
    return 0;
  }
}
