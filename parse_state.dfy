/**
 * The parse state every option parser reports through: whether the program should stop after
 * parsing (`exit`) and with which status (`code`). src/user/args/helper.c (`arg_parse_state`) and
 * src/user/args/state.c (`args_parse_state`) are two copies of the same six operations; both are
 * modelled by this module. Every operation tolerates a NULL state: the setters then do nothing and
 * the getters answer 0.
 */
module ParseState {

  class State {
    var exit: int
    var code: int

    /** A state as the stack or a zeroed global holds it before `init`. */
    constructor ()
      ensures exit == 0 && code == 0
    {
      exit := 0;
      code := 0;
    }
  }

  /** `is_exit_set`: the exit flag, 0 for a NULL state. */
  function IsExitSet(s: State?): (r: int)
    reads s
    ensures s == null ==> r == 0
    ensures s != null ==> r == s.exit
  {
    if s == null then 0 else s.exit
  }

  /** `get_code`: the exit status, 0 for a NULL state. */
  function GetCode(s: State?): (r: int)
    reads s
    ensures s == null ==> r == 0
    ensures s != null ==> r == s.code
  {
    if s == null then 0 else s.code
  }

  /** `init`: parsing continues, status 0. */
  method Init(s: State?)
    modifies s
    ensures IsExitSet(s) == 0 && GetCode(s) == 0
  {
    if s == null {
      return;
    }
    s.exit := 0;
    s.code := 0;
  }

  /** `set_exit_error`: stop, with status `c`. */
  method SetExitError(s: State?, c: int)
    modifies s
    ensures s != null ==> IsExitSet(s) == 1 && GetCode(s) == c
    ensures s == null ==> IsExitSet(s) == 0 && GetCode(s) == 0
  {
    if s == null {
      return;
    }
    s.exit := 1;
    s.code := c;
  }

  /** `set_exit_no_error`: stop, with status 0 (after help, usage or version). */
  method SetExitNoError(s: State?)
    modifies s
    ensures IsExitSet(s) == (if s == null then 0 else 1) && GetCode(s) == 0
  {
    if s == null {
      return;
    }
    s.exit := 1;
    s.code := 0;
  }

  /** `set_no_exit`: the same as `init`. */
  method SetNoExit(s: State?)
    modifies s
    ensures IsExitSet(s) == 0 && GetCode(s) == 0
  {
    Init(s);
  }
}
