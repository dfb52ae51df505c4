/**
 * The second-generation ameba parser (src/user/arg/ameba.c): the log options of the LogOptions
 * module plus -t, which asks for output to stdout instead of the log files. The file stores that
 * request in an `output_stdout` field of `struct arg_ameba`, a field src/user/arg/ameba.h does not
 * declare; the model gives the struct the field the code uses. Unlike the first-generation parser,
 * `arg_ameba_parse` answers -1 for a NULL target and 0 otherwise.
 */
module ArgAmeba {
  import opened Wrappers
  import opened CStd
  import opened BoundedText
  import opened ParseState
  import opened Control
  import opened LogOptions

  /** The value of a `struct arg_ameba` as the code uses it. */
  datatype Ameba = Ameba(log: LogArgs, outputStdout: int)

  /** The value of a `struct arg_ameba_with_parse_state`. */
  datatype AmebaParsed = AmebaParsed(exit: int, code: int, arg: Ameba)

  predicate Fits(a: Ameba) { Sized(a.log) }

  function ZeroAmeba(): (a: Ameba)
    ensures Fits(a)
  {
    Ameba(ZeroLogArgs(), 0)
  }

  /** One `parse_opt` call: -t raises the flag, ARGP_KEY_INIT loads the initial value, every other key acts on the log options. */
  function AmebaStep(p: AmebaParsed, initial: Ameba, key: Key, arg: string): (q: AmebaParsed)
    requires Fits(p.arg) && Fits(initial)
    ensures Fits(q.arg)
  {
    if key == Opt('t') then p.(arg := p.arg.(outputStdout := 1))
    else if key == KeyInit then AmebaParsed(0, 0, initial)
    else
      var s := Step(Parsed(p.exit, p.code, p.arg.log), initial.log, key, arg);
      AmebaParsed(s.exit, s.code, p.arg.(log := s.log))
  }

  /** The parser calls argp makes between ARGP_KEY_INIT and ARGP_KEY_END, in order. */
  function AmebaRun(p: AmebaParsed, initial: Ameba, events: seq<(Key, string)>): (q: AmebaParsed)
    requires Fits(p.arg) && Fits(initial)
    ensures Fits(q.arg)
    decreases |events|
  {
    if events == [] then p
    else AmebaRun(AmebaStep(p, initial, events[0].0, events[0].1), initial, events[1..])
  }

  /** What `arg_ameba_parse` hands back for a non-NULL target. */
  function AmebaOutcome(initial: Option<Ameba>, events: seq<(Key, string)>): (q: AmebaParsed)
    requires initial.Some? ==> Fits(initial.value)
    ensures Fits(q.arg)
  {
    var init := if initial.Some? then initial.value else ZeroAmeba();
    AmebaStep(AmebaRun(AmebaParsed(0, 0, init), init, events), init, KeyEnd, "")
  }

  /** -t touches nothing but the flag: it is never refused and never ends the parse. */
  lemma StdoutOptionMeaning(p: AmebaParsed, initial: Ameba, arg: string)
    requires Fits(p.arg) && Fits(initial)
    ensures var q := AmebaStep(p, initial, Opt('t'), arg);
      q.arg.outputStdout == 1 && q.arg.log == p.arg.log && q.exit == p.exit && q.code == p.code
  {
  }

  /** The flag no option but -t changes keeps its value through a run. */
  lemma {:induction false} RunKeepsStdout(p: AmebaParsed, initial: Ameba, events: seq<(Key, string)>)
    requires Fits(p.arg) && Fits(initial) && p.arg.outputStdout == initial.outputStdout
    requires forall k | 0 <= k < |events| :: events[k].0 != Opt('t')
    ensures AmebaRun(p, initial, events).arg.outputStdout == initial.outputStdout
    decreases |events|
  {
    if events != [] {
      assert events[0].0 != Opt('t');
      assert forall k | 0 <= k < |events| - 1 :: events[1..][k] == events[k + 1];
      RunKeepsStdout(AmebaStep(p, initial, events[0].0, events[0].1), initial, events[1..]);
    }
  }

  /** Any -t among the calls, after the last ARGP_KEY_INIT, leaves the flag raised. */
  lemma {:induction false} RunRaisesStdout(p: AmebaParsed, initial: Ameba, events: seq<(Key, string)>, t: nat)
    requires Fits(p.arg) && Fits(initial)
    requires t < |events| && events[t].0 == Opt('t')
    requires forall k | t < k < |events| :: events[k].0 != KeyInit
    ensures AmebaRun(p, initial, events).arg.outputStdout == 1
    decreases |events|
  {
    assert forall k | 0 <= k < |events| - 1 :: events[1..][k] == events[k + 1];
    var q := AmebaStep(p, initial, events[0].0, events[0].1);
    if t == 0 {
      assert q.arg.outputStdout == 1;
      RaisedStdoutStays(q, initial, events[1..]);
    } else {
      RunRaisesStdout(q, initial, events[1..], t - 1);
    }
  }

  /** A raised flag stays raised while no ARGP_KEY_INIT comes. */
  lemma {:induction false} RaisedStdoutStays(p: AmebaParsed, initial: Ameba, events: seq<(Key, string)>)
    requires Fits(p.arg) && Fits(initial) && p.arg.outputStdout == 1
    requires forall k | 0 <= k < |events| :: events[k].0 != KeyInit
    ensures AmebaRun(p, initial, events).arg.outputStdout == 1
    decreases |events|
  {
    if events != [] {
      assert events[0].0 != KeyInit;
      assert forall k | 0 <= k < |events| - 1 :: events[1..][k] == events[k + 1];
      RaisedStdoutStays(AmebaStep(p, initial, events[0].0, events[0].1), initial, events[1..]);
    }
  }

  /** The parse ends with exit flag 0 exactly when no call stopped it and the log options pass the final check. */
  lemma CleanExitMeansValid(initial: Option<Ameba>, events: seq<(Key, string)>)
    requires initial.Some? ==> Fits(initial.value)
    ensures var init := if initial.Some? then initial.value else ZeroAmeba();
      var p := AmebaRun(AmebaParsed(0, 0, init), init, events);
      (AmebaOutcome(initial, events).exit == 0 <==> p.exit == 0 && Validated(p.arg.log))
      && AmebaOutcome(initial, events).arg == p.arg
  {
    var init := if initial.Some? then initial.value else ZeroAmeba();
    var p := AmebaRun(AmebaParsed(0, 0, init), init, events);
    EndMeaning(Parsed(p.exit, p.code, p.arg.log), init.log);
  }

  /** -t alone does not name a log directory, so the final check still fails the parse. */
  lemma StdoutAloneFails()
    ensures AmebaOutcome(None, [(Opt('t'), "")]) == AmebaParsed(1, -1, Ameba(ZeroLogArgs(), 1))
  {
    var z := ZeroAmeba();
    assert [(Opt('t'), "")][1..] == [];
    assert AmebaRun(AmebaParsed(0, 0, z), z, [(Opt('t'), "")]) == AmebaParsed(0, 0, Ameba(ZeroLogArgs(), 1));
    assert !Validated(ZeroLogArgs());
  }

  /** Help without a log directory stops the parse, and the final check then turns its status into -1. */
  lemma HelpWithoutDirEndsInError()
    ensures AmebaOutcome(None, [(Opt('?'), "")]) == AmebaParsed(1, -1, ZeroAmeba())
  {
    var z := ZeroAmeba();
    assert [(Opt('?'), "")][1..] == [];
    assert AmebaRun(AmebaParsed(0, 0, z), z, [(Opt('?'), "")]) == AmebaParsed(1, 0, z);
    assert !Validated(z.log);
  }

  // ---------------------------------------------------------------------------------------------
  // The state

  /** `struct arg_ameba`, with the `output_stdout` field the code writes. */
  class AmebaFields {
    const log: LogFields
    var outputStdout: int

    ghost predicate Valid()
      reads this, log
    {
      log.Valid()
    }

    ghost function Repr(): set<object>
      reads this, log
    {
      {this} + log.Repr()
    }

    function Value(): Ameba
      reads this, log, log.logDirPath
    {
      Ameba(log.Value(), outputStdout)
    }

    constructor ()
      ensures Valid() && fresh(Repr()) && Value() == ZeroAmeba()
    {
      log := new LogFields();
      outputStdout := 0;
    }

    /** `memcpy` of a whole struct. */
    method CopyFrom(src: AmebaFields)
      requires Valid() && src.Valid() && Repr() !! src.Repr()
      modifies Repr()
      ensures Valid() && Value() == old(src.Value())
    {
      log.CopyFrom(src.log);
      outputStdout := src.outputStdout;
    }

    /** `memset` of a whole struct to zero. */
    method Zero()
      requires Valid()
      modifies Repr()
      ensures Valid() && Value() == ZeroAmeba()
    {
      log.Zero();
      outputStdout := 0;
    }
  }

  /** `struct arg_ameba_with_parse_state`. */
  class WithParseState {
    const parseState: State
    const arg: AmebaFields

    ghost predicate Valid()
      reads this, arg, arg.log
    {
      arg.Valid()
    }

    ghost function Repr(): set<object>
      reads this, arg, arg.log
    {
      {parseState} + arg.Repr()
    }

    function Value(): AmebaParsed
      reads this, parseState, arg, arg.log, arg.log.logDirPath
    {
      AmebaParsed(parseState.exit, parseState.code, arg.Value())
    }

    constructor ()
      ensures Valid() && fresh(Repr()) && Value() == AmebaParsed(0, 0, ZeroAmeba())
    {
      parseState := new State();
      arg := new AmebaFields();
    }

    /** `memcpy` of a whole `arg_ameba_with_parse_state`. */
    method CopyFrom(src: WithParseState)
      requires Valid() && src.Valid() && Repr() !! src.Repr()
      modifies Repr()
      ensures Valid() && Value() == old(src.Value())
    {
      arg.CopyFrom(src.arg);
      parseState.exit := src.parseState.exit;
      parseState.code := src.parseState.code;
    }
  }

  /** The two statics of the file: the parse target and the initial value. */
  class Globals {
    const target: WithParseState
    const initialValue: AmebaFields

    ghost predicate Valid()
      reads this, target, target.arg, target.arg.log, initialValue, initialValue.log
    {
      target.Valid() && initialValue.Valid() && target.arg.Repr() !! initialValue.Repr()
    }

    ghost function Repr(): set<object>
      reads this, target, target.arg, target.arg.log, initialValue, initialValue.log
    {
      target.Repr() + initialValue.Repr()
    }

    constructor ()
      ensures Valid() && fresh(Repr())
    {
      target := new WithParseState();
      initialValue := new AmebaFields();
    }
  }

  /** `set_global_initial_value`: a copy of `src`, or the all-zero struct for NULL. */
  method SetGlobalInitialValue(g: Globals, src: AmebaFields?)
    requires g.Valid() && (src != null ==> src.Valid() && src.Repr() !! g.initialValue.Repr())
    modifies g.initialValue.Repr()
    ensures g.Valid()
    ensures g.initialValue.Value() == if src == null then ZeroAmeba() else old(src.Value())
  {
    if src == null {
      g.initialValue.Zero();
    } else {
      g.initialValue.CopyFrom(src);
    }
  }

  /** `initialize_arg_with_parse_state` on the static target: the initial value, status 0, no exit. */
  method InitializeArgWithParseState(g: Globals)
    requires g.Valid()
    modifies g.target.Repr()
    ensures g.Valid()
    ensures g.target.Value() == AmebaParsed(0, 0, old(g.initialValue.Value()))
  {
    g.target.arg.CopyFrom(g.initialValue);
    Init(g.target.parseState);
  }

  /** `parse_opt`: one parser call on the static target; it always answers 0. */
  method ParseOpt(g: Globals, key: Key, arg: string) returns (r: int)
    requires g.Valid()
    modifies g.target.Repr()
    ensures g.Valid()
    ensures r == 0
    ensures g.target.Value() == AmebaStep(old(g.target.Value()), old(g.initialValue.Value()), key, arg)
  {
    r := 0;
    if key == Opt('t') {
      g.target.arg.outputStdout := 1;
    } else if key == KeyInit {
      InitializeArgWithParseState(g);
    } else {
      ParseLogOpt(g.target.parseState, g.target.arg.log, g.initialValue.log.Value(), key, arg);
    }
  }

  /** argp's parser calls for the options, in order, on the static target. */
  method RunEvents(g: Globals, events: seq<(Key, string)>)
    requires g.Valid()
    modifies g.target.Repr()
    ensures g.Valid()
    ensures g.target.Value() == AmebaRun(old(g.target.Value()), old(g.initialValue.Value()), events)
  {
    ghost var init := g.initialValue.Value();
    var i := 0;
    while i < |events|
      invariant 0 <= i <= |events| && g.Valid() && g.initialValue.Value() == init
      invariant AmebaRun(g.target.Value(), init, events[i..]) == AmebaRun(old(g.target.Value()), init, events)
      modifies g.target.Repr()
    {
      assert events[i..][1..] == events[i + 1..];
      var _ := ParseOpt(g, events[i].0, events[i].1);
      i := i + 1;
    }
    assert events[i..] == [];
  }

  /**
   * `arg_ameba_parse`: -1 for a NULL target; otherwise the initial value is stored, argp's calls
   * run on the static target (ARGP_KEY_INIT first, ARGP_KEY_END last), the result is copied to
   * `dst`, and the answer is 0 whatever the options were.
   */
  method Parse(g: Globals, dst: WithParseState?, initial: AmebaFields?, events: seq<(Key, string)>) returns (r: int)
    requires g.Valid()
    requires dst != null ==> dst.Valid() && dst.Repr() !! g.Repr()
    requires initial != null ==> initial.Valid() && initial.Repr() !! g.initialValue.Repr()
    modifies g.Repr(), if dst == null then {} else dst.Repr()
    ensures dst == null ==> r == -1 && unchanged(g.Repr())
    ensures dst != null ==> (r == 0 && dst.Value() ==
      AmebaOutcome(if initial == null then None else Some(old(initial.Value())), events))
  {
    if dst == null {
      return -1;
    }
    SetGlobalInitialValue(g, initial);
    r := ParseOpt(g, KeyInit, "");
    RunEvents(g, events);
    r := ParseOpt(g, KeyEnd, "");
    dst.CopyFrom(g.target);
    return 0;
  }
}
