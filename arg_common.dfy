/**
 * The options every command line shares (src/user/arg/common.c): three flags recording that help,
 * usage or the version was asked for. Asking for any of them also tells the parse state to stop
 * with status 0. A NULL argument turns each operation into a no-op.
 */
module ArgCommon {
  import opened ParseState

  class Common {
    var showHelp: int
    var showUsage: int
    var showVersion: int

    constructor ()
      ensures showHelp == 0 && showUsage == 0 && showVersion == 0
    {
      showHelp := 0;
      showUsage := 0;
      showVersion := 0;
    }
  }

  /** `arg_common_is_usage_help_or_version_set`: 1 exactly when one of the flags is non-zero. */
  function IsUsageHelpOrVersionSet(a: Common?): (r: int)
    reads a
    ensures r == 0 || r == 1
    ensures r == 1 <==> a != null && (a.showHelp != 0 || a.showUsage != 0 || a.showVersion != 0)
  {
    if a != null && (a.showHelp != 0 || a.showUsage != 0 || a.showVersion != 0) then 1 else 0
  }

  /** `arg_common_init`: all three flags cleared. */
  method Init(a: Common?)
    modifies a
    ensures a != null ==> a.showHelp == 0 && a.showUsage == 0 && a.showVersion == 0
    ensures IsUsageHelpOrVersionSet(a) == 0
  {
    if a == null {
      return;
    }
    a.showHelp := 0;
    a.showUsage := 0;
    a.showVersion := 0;
  }

  /** `arg_common_show_help`: only the help flag is raised, and parsing stops with status 0. */
  method ShowHelp(a: Common?, st: State?)
    modifies a, st
    ensures st == null && a != null ==> unchanged(a)
    ensures a == null && st != null ==> unchanged(st)
    ensures a != null && st != null ==>
      a.showHelp == 1 && a.showUsage == old(a.showUsage) && a.showVersion == old(a.showVersion)
      && IsExitSet(st) == 1 && GetCode(st) == 0
    ensures a != null && st != null ==> IsUsageHelpOrVersionSet(a) == 1
  {
    if a == null || st == null {
      return;
    }
    a.showHelp := 1;
    SetExitNoError(st);
  }

  /** `arg_common_show_usage`: only the usage flag is raised, and parsing stops with status 0. */
  method ShowUsage(a: Common?, st: State?)
    modifies a, st
    ensures st == null && a != null ==> unchanged(a)
    ensures a == null && st != null ==> unchanged(st)
    ensures a != null && st != null ==>
      a.showUsage == 1 && a.showHelp == old(a.showHelp) && a.showVersion == old(a.showVersion)
      && IsExitSet(st) == 1 && GetCode(st) == 0
    ensures a != null && st != null ==> IsUsageHelpOrVersionSet(a) == 1
  {
    if a == null || st == null {
      return;
    }
    a.showUsage := 1;
    SetExitNoError(st);
  }

  /** `arg_common_show_version`: only the version flag is raised, and parsing stops with status 0. */
  method ShowVersion(a: Common?, st: State?)
    modifies a, st
    ensures st == null && a != null ==> unchanged(a)
    ensures a == null && st != null ==> unchanged(st)
    ensures a != null && st != null ==>
      a.showVersion == 1 && a.showHelp == old(a.showHelp) && a.showUsage == old(a.showUsage)
      && IsExitSet(st) == 1 && GetCode(st) == 0
    ensures a != null && st != null ==> IsUsageHelpOrVersionSet(a) == 1
  {
    if a == null || st == null {
      return;
    }
    a.showVersion := 1;
    SetExitNoError(st);
  }
}
