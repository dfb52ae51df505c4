/**
 * The first-generation ameba parser (src/user/args/ameba.c). Parsing works on a static
 * `ameba_input_arg` (a parse state and the log options). ARGP_KEY_INIT loads the options from a
 * static initial value, each option updates them in place or records exit status -1, and
 * ARGP_KEY_END runs the final check. The whole static struct is then copied to the caller. The
 * parse state operations are those of the ParseState module.
 */
module ArgsAmeba {
  import opened Wrappers
  import opened CStd
  import opened BoundedText
  import opened ParseState
  import opened Control
  import opened LogOptions

  /** The parser calls argp makes between ARGP_KEY_INIT and ARGP_KEY_END, in order. */
  function Run(p: Parsed, initial: LogArgs, events: seq<(Key, string)>): (q: Parsed)
    requires Sized(p.log) && Sized(initial)
    ensures Sized(q.log)
    decreases |events|
  {
    if events == [] then p
    else Run(Step(p, initial, events[0].0, events[0].1), initial, events[1..])
  }

  /**
   * What `user_args_ameba_parse` hands back for the initial value `initial` (the all-zero struct
   * for NULL) and the calls between ARGP_KEY_INIT and ARGP_KEY_END.
   */
  function Outcome(initial: Option<LogArgs>, events: seq<(Key, string)>): (q: Parsed)
    requires initial.Some? ==> Sized(initial.value)
    ensures Sized(q.log)
  {
    var init := if initial.Some? then initial.value else ZeroLogArgs();
    Step(Run(Parsed(0, 0, init), init, events), init, KeyEnd, "")
  }

  /** The parse ends with exit flag 0 exactly when no call stopped it and the options pass the final check. */
  lemma CleanExitMeansValid(initial: Option<LogArgs>, events: seq<(Key, string)>)
    requires initial.Some? ==> Sized(initial.value)
    ensures var init := if initial.Some? then initial.value else ZeroLogArgs();
      var p := Run(Parsed(0, 0, init), init, events);
      (Outcome(initial, events).exit == 0 <==> p.exit == 0 && Validated(p.log))
      && Outcome(initial, events).log == p.log
  {
    var init := if initial.Some? then initial.value else ZeroLogArgs();
    EndMeaning(Run(Parsed(0, 0, init), init, events), init);
  }

  /** Once the exit flag is raised no later call lowers it (ARGP_KEY_INIT aside). */
  lemma {:induction false} ExitSticks(p: Parsed, initial: LogArgs, events: seq<(Key, string)>)
    requires Sized(p.log) && Sized(initial) && p.exit == 1
    requires forall k | 0 <= k < |events| :: events[k].0 != KeyInit
    ensures Run(p, initial, events).exit == 1
    decreases |events|
  {
    if events != [] {
      assert events[0].0 != KeyInit;
      assert forall k | 0 <= k < |events| - 1 :: events[1..][k] == events[k + 1];
      ExitSticks(Step(p, initial, events[0].0, events[0].1), initial, events[1..]);
    }
  }

  /**
   * With no initial value, a directory, a size and a count that each pass their check give a clean
   * parse holding exactly those three values.
   */
  lemma ThreeOptionsParse(dir: string, size: string, count: string)
    requires DirCheckAsWritten(dir).None? && NoNul(dir) && SizeOf(size).Some? && CountOf(count).Some?
    ensures var q := Outcome(None, [(Opt('o'), dir), (Opt('s'), size), (Opt('c'), count)]);
      q.exit == 0 && q.code == 0 && CString(q.log.logDirPath) == dir
      && q.log.logFileSizeBytes == SizeOf(size).value && q.log.logFileCount == CountOf(count).value
  {
    var z := ZeroLogArgs();
    var p0 := Parsed(0, 0, z);
    var p1 := Step(p0, z, Opt('o'), dir);
    DirOptionMeaning(p0, z, dir);
    var p2 := Step(p1, z, Opt('s'), size);
    var p3 := Step(p2, z, Opt('c'), count);
    var events := [(Opt('o'), dir), (Opt('s'), size), (Opt('c'), count)];
    assert events[1..] == [(Opt('s'), size), (Opt('c'), count)];
    assert events[1..][1..] == [(Opt('c'), count)];
    assert Run(p2, z, events[1..][1..]) == p3;
    assert Run(p1, z, events[1..]) == p3;
    assert Run(p0, z, events) == p3;
    assert p3.log.logDirPath[0] == dir[0];
  }

  /**
   * A second -o copies only its own characters: after `-o /var/log/ameba -o /tmp` the directory
   * reads "/tmp/log/ameba".
   */
  lemma SecondDirKeepsOldTail()
    ensures var z := ZeroLogArgs();
      var q := Run(Parsed(0, 0, z), z, [(Opt('o'), "/var/log/ameba"), (Opt('o'), "/tmp")]);
      q.exit == 0 && CString(q.log.logDirPath) == "/tmp/log/ameba"
  {
    var z := ZeroLogArgs();
    var events := [(Opt('o'), "/var/log/ameba"), (Opt('o'), "/tmp")];
    var p1 := Step(Parsed(0, 0, z), z, Opt('o'), "/var/log/ameba");
    assert p1.log.logDirPath == OldLogDir();
    var p2 := Step(p1, z, Opt('o'), "/tmp");
    assert events[1..] == [(Opt('o'), "/tmp")] && events[1..][1..] == [];
    assert Run(Parsed(0, 0, z), z, events) == p2;
    ShortPathKeepsOldTail();
  }

  /** Help without a log directory stops the parse, and the final check then turns its status into -1. */
  lemma HelpWithoutDirEndsInError()
    ensures Outcome(None, [(Opt('?'), "")]) == Parsed(1, -1, ZeroLogArgs())
  {
    var z := ZeroLogArgs();
    assert [(Opt('?'), "")][1..] == [];
    assert Run(Parsed(0, 0, z), z, [(Opt('?'), "")]) == Parsed(1, 0, z);
    assert !Validated(z);
  }

  // ---------------------------------------------------------------------------------------------
  // The state

  /** `struct ameba_input_arg`. */
  class WithParseState {
    const parseState: State
    const input: LogFields

    ghost predicate Valid()
      reads this, input
    {
      input.Valid()
    }

    ghost function Repr(): set<object>
      reads this, input
    {
      {parseState} + input.Repr()
    }

    function Value(): Parsed
      reads this, parseState, input, input.logDirPath
    {
      Parsed(parseState.exit, parseState.code, input.Value())
    }

    constructor ()
      ensures Valid() && fresh(Repr()) && Value() == Parsed(0, 0, ZeroLogArgs())
    {
      parseState := new State();
      input := new LogFields();
    }

    /** `memcpy` of a whole `ameba_input_arg`. */
    method CopyFrom(src: WithParseState)
      requires Valid() && src.Valid() && Repr() !! src.Repr()
      modifies Repr()
      ensures Valid() && Value() == old(src.Value())
    {
      input.CopyFrom(src.input);
      parseState.exit := src.parseState.exit;
      parseState.code := src.parseState.code;
    }
  }

  /** The two statics of the file: the parse target and the initial value. */
  class Globals {
    const target: WithParseState
    const initialValue: LogFields

    ghost predicate Valid()
      reads this, target, target.input, initialValue
    {
      target.Valid() && initialValue.Valid() && target.input.Repr() !! initialValue.Repr()
    }

    ghost function Repr(): set<object>
      reads this, target, target.input, initialValue
    {
      target.Repr() + initialValue.Repr()
    }

    constructor ()
      ensures Valid() && fresh(Repr())
    {
      target := new WithParseState();
      initialValue := new LogFields();
    }
  }

  /** `init_ameba_input` on the static target: the initial value, status 0, no exit. */
  method InitAmebaInput(g: Globals)
    requires g.Valid()
    modifies g.target.Repr()
    ensures g.Valid()
    ensures g.target.Value() == Parsed(0, 0, old(g.initialValue.Value()))
  {
    g.target.input.CopyFrom(g.initialValue);
    Init(g.target.parseState);
  }

  /** `parse_opt`: one parser call on the static target; it always answers 0. */
  method ParseOpt(g: Globals, key: Key, arg: string) returns (r: int)
    requires g.Valid()
    modifies g.target.Repr()
    ensures g.Valid()
    ensures r == 0
    ensures g.target.Value() == Step(old(g.target.Value()), old(g.initialValue.Value()), key, arg)
  {
    r := 0;
    if key == KeyInit {
      InitAmebaInput(g);
    } else {
      ParseLogOpt(g.target.parseState, g.target.input, g.initialValue.Value(), key, arg);
    }
  }

  /** argp's parser calls for the options, in order, on the static target. */
  method RunEvents(g: Globals, events: seq<(Key, string)>)
    requires g.Valid()
    modifies g.target.Repr()
    ensures g.Valid()
    ensures g.target.Value() == Run(old(g.target.Value()), old(g.initialValue.Value()), events)
  {
    ghost var init := g.initialValue.Value();
    var i := 0;
    while i < |events|
      invariant 0 <= i <= |events| && g.Valid() && g.initialValue.Value() == init
      invariant Run(g.target.Value(), init, events[i..]) == Run(old(g.target.Value()), init, events)
      modifies g.target.Repr()
    {
      assert events[i..][1..] == events[i + 1..];
      var _ := ParseOpt(g, events[i].0, events[i].1);
      i := i + 1;
    }
    assert events[i..] == [];
  }

  /**
   * `user_args_ameba_parse`: nothing for a NULL target; otherwise the initial value is stored,
   * argp's calls run on the static target (ARGP_KEY_INIT first, ARGP_KEY_END last) and the
   * result is copied to `dst`.
   */
  method Parse(g: Globals, dst: WithParseState?, initial: LogFields?, events: seq<(Key, string)>)
    requires g.Valid()
    requires dst != null ==> dst.Valid() && dst.Repr() !! g.Repr()
    requires initial != null ==> initial.Valid() && initial.Repr() !! g.initialValue.Repr()
    modifies g.Repr(), if dst == null then {} else dst.Repr()
    ensures dst == null ==> unchanged(g.Repr())
    ensures dst != null ==> dst.Value() == Outcome(if initial == null then None else Some(old(initial.Value())), events)
  {
    if dst == null {
      return;
    }
    if initial == null {
      g.initialValue.Zero();
    } else {
      g.initialValue.CopyFrom(initial);
    }
    var _ := ParseOpt(g, KeyInit, "");
    RunEvents(g, events);
    var _ := ParseOpt(g, KeyEnd, "");
    dst.CopyFrom(g.target);
  }
}
