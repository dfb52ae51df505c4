/**
 * The configuration file reader (src/user/config/config.c): `config_parse_as_argv` turns a file
 * into an argument vector for argp. argv[0] is the file's base name; the file is read with
 * `fgets` into a 200-byte line buffer, each piece is trimmed, blank pieces and pieces starting
 * with '#' are skipped, and the others are split on blanks and tabs. At most MAX_ARGS entries are
 * kept. The file's contents are a parameter (None when `fopen` fails), and so is the failure of
 * the two allocations the function checks.
 */
module Config {
  import opened Wrappers
  import opened CStd
  import opened BoundedText

  /** The `fgets` buffer size: a piece holds at most MAX_LINE_LEN - 1 characters. */
  const MAX_LINE_LEN: nat := 200
  const MAX_ARGS: nat := 100

  // ---------------------------------------------------------------------------------------------
  // trim_strip

  /** Number of trailing characters of `s` that satisfy `isspace`. */
  function TrailingSpaces(s: string): (n: nat)
    ensures n <= |s| && (n < |s| ==> !IsSpace(s[|s| - n - 1]))
    ensures forall i | |s| - n <= i < |s| :: IsSpace(s[i])
  {
    if s != [] && IsSpace(s[|s| - 1]) then 1 + TrailingSpaces(s[..|s| - 1]) else 0
  }

  /** `trim_strip`: the string without its leading and trailing white space. */
  function Trim(s: string): (t: string)
  {
    var i := LeadingSpaces(s);
    if i == |s| then [] else s[i..|s| - TrailingSpaces(s)]
  }

  /**
   * The trimmed string is what lies between a run of leading and a run of trailing white space,
   * and it neither starts nor ends with white space.
   */
  lemma TrimMeaning(s: string)
    ensures var i := LeadingSpaces(s); var t := Trim(s);
      i + |t| <= |s| && s[i..i + |t|] == t
      && (forall k | 0 <= k < i :: IsSpace(s[k]))
      && (forall k | i + |t| <= k < |s| :: IsSpace(s[k]))
      && (t != [] ==> !IsSpace(t[0]) && !IsSpace(t[|t| - 1]))
  {
    TrimEnds(s);
    var i := LeadingSpaces(s);
    if i < |s| {
      var n := TrailingSpaces(s);
      assert n < |s| - i by {
        assert !IsSpace(s[i]);
      }
    }
  }

  /** The trimmed string neither starts nor ends with white space. */
  lemma TrimEnds(s: string)
    ensures var t := Trim(s); t != [] ==> !IsSpace(t[0]) && !IsSpace(t[|t| - 1])
  {
    var i := LeadingSpaces(s);
    if i < |s| {
      var n := TrailingSpaces(s);
      assert n < |s| - i by {
        assert !IsSpace(s[i]);
      }
      var t := s[i..|s| - n];
      assert t[0] == s[i] && t[|t| - 1] == s[|s| - n - 1];
    }
  }

  /** Trimming twice is trimming once. */
  lemma TrimIdempotent(s: string)
    ensures Trim(Trim(s)) == Trim(s)
  {
    TrimMeaning(s);
    var t := Trim(s);
    if t != [] {
      assert LeadingSpaces(t) == 0;
      assert TrailingSpaces(t) == 0;
      assert t[0..|t|] == t;
    }
  }

  /** `trim_strip` on the line buffer: the start it returns and the index where it writes the NUL. */
  method TrimStrip(line: string) returns (start: nat, end: nat)
    ensures start <= end <= |line| && line[start..end] == Trim(line)
  {
    start := 0;
    while start < |line| && IsSpace(line[start])
      invariant start <= |line| && forall k | 0 <= k < start :: IsSpace(line[k])
    {
      start := start + 1;
    }
    assert start == LeadingSpaces(line);
    if start == |line| {
      return start, start;
    }
    var e := |line| - 1;
    while e > start && IsSpace(line[e])
      invariant start <= e < |line| && forall k | e < k < |line| :: IsSpace(line[k])
    {
      e := e - 1;
    }
    assert |line| - TrailingSpaces(line) == e + 1;
    return start, e + 1;
  }

  // ---------------------------------------------------------------------------------------------
  // Reading pieces with fgets

  /** How much one `fgets(line, MAX_LINE_LEN, f)` call reads: through the first newline, at most MAX_LINE_LEN - 1 characters. */
  function PieceLength(s: string): (n: nat)
    requires s != []
    ensures 0 < n <= |s| && n < MAX_LINE_LEN
    ensures forall i | 0 <= i < n - 1 :: s[i] != '\n'
    ensures n == |s| || s[n - 1] == '\n' || n == MAX_LINE_LEN - 1
  {
    var k := RunLength(s, {'\n'});
    var n := if k < |s| then k + 1 else |s|;
    if n < MAX_LINE_LEN - 1 then n else MAX_LINE_LEN - 1
  }

  /** The successive pieces `fgets` returns for the whole file. */
  function Pieces(s: string): (ps: seq<string>)
    ensures forall k | 0 <= k < |ps| :: 0 < |ps[k]| < MAX_LINE_LEN
    decreases |s|
  {
    if s == [] then [] else [s[..PieceLength(s)]] + Pieces(s[PieceLength(s)..])
  }

  /** The pieces put back together are the file: nothing is lost or repeated. */
  lemma {:induction false} PiecesCover(s: string)
    ensures Concat(Pieces(s)) == s
    decreases |s|
  {
    if s != [] {
      var n := PieceLength(s);
      var head, tail := s[..n], s[n..];
      assert Pieces(s) == [head] + Pieces(tail);
      PiecesCover(tail);
      ConcatAppend([head], Pieces(tail));
      ConcatSingle(head);
      assert head + tail == s;
    }
  }

  /** A line of at most MAX_LINE_LEN - 1 characters ending in a newline is read as one piece. */
  lemma ShortLineIsOnePiece(line: string, rest: string)
    requires 0 < |line| < MAX_LINE_LEN && line[|line| - 1] == '\n'
    requires forall i | 0 <= i < |line| - 1 :: line[i] != '\n'
    ensures Pieces(line + rest) == [line] + Pieces(rest)
  {
    var s := line + rest;
    assert s[..|line|] == line && s[|line|..] == rest;
    assert forall i | 0 <= i < |line| :: s[i] == line[i];
    assert s[|line| - 1] == '\n';
    assert RunLength(s, {'\n'}) == |line| - 1;
    assert PieceLength(s) == |line|;
  }

  /** A longer line is cut after MAX_LINE_LEN - 1 characters, and the rest is read as a new piece. */
  lemma LongLineIsCut(head: string, rest: string)
    requires |head| == MAX_LINE_LEN - 1 && forall i | 0 <= i < |head| :: head[i] != '\n'
    ensures Pieces(head + rest) == [head] + Pieces(rest)
  {
    var s := head + rest;
    assert s[..|head|] == head && s[|head|..] == rest;
    assert forall i | 0 <= i < |head| :: s[i] == head[i];
    assert RunLength(s, {'\n'}) >= |head|;
    assert PieceLength(s) == |head|;
  }

  // ---------------------------------------------------------------------------------------------
  // Tokens

  /** What one piece contributes: nothing when it is blank or starts with '#', else its blank- and tab-separated tokens. */
  function PieceTokens(piece: string): (ts: seq<string>)
    ensures forall k | 0 <= k < |ts| :: ts[k] != [] && forall i | 0 <= i < |ts[k]| :: ts[k][i] != ' ' && ts[k][i] != '\t'
  {
    var t := Trim(piece);
    if t == [] || t[0] == '#' then [] else Tokens(t, {' ', '\t'})
  }

  /** The tokens of all pieces, in order. */
  function AllTokens(ps: seq<string>): (ts: seq<string>)
    decreases |ps|
  {
    if ps == [] then [] else PieceTokens(ps[0]) + AllTokens(ps[1..])
  }

  /** A blank line and a comment line contribute nothing; any other short line contributes its tokens. */
  lemma LineContribution(line: string, rest: string)
    requires 0 < |line| < MAX_LINE_LEN && line[|line| - 1] == '\n'
    requires forall i | 0 <= i < |line| - 1 :: line[i] != '\n'
    ensures AllTokens(Pieces(line + rest)) == PieceTokens(line) + AllTokens(Pieces(rest))
    ensures Trim(line) == [] || Trim(line)[0] == '#' ==> AllTokens(Pieces(line + rest)) == AllTokens(Pieces(rest))
  {
    ShortLineIsOnePiece(line, rest);
    assert ([line] + Pieces(rest))[1..] == Pieces(rest);
  }

  /**
   * Only the first MAX_LINE_LEN - 1 characters of a long comment line are skipped: what follows is
   * read as a piece of its own, and its words become arguments.
   */
  lemma LongCommentContinues(head: string, rest: string)
    requires |head| == MAX_LINE_LEN - 1 && forall i | 0 <= i < |head| :: head[i] != '\n'
    requires Trim(head) != [] && Trim(head)[0] == '#'
    ensures AllTokens(Pieces(head + rest)) == AllTokens(Pieces(rest))
  {
    LongLineIsCut(head, rest);
    assert ([head] + Pieces(rest))[1..] == Pieces(rest);
  }

  // ---------------------------------------------------------------------------------------------
  // argv[0]

  /** Number of trailing '/' characters. */
  function TrailingSlashes(p: string): (n: nat)
    ensures n <= |p| && (n < |p| ==> p[|p| - n - 1] != '/')
    ensures forall i | |p| - n <= i < |p| :: p[i] == '/'
  {
    if p != [] && p[|p| - 1] == '/' then 1 + TrailingSlashes(p[..|p| - 1]) else 0
  }

  /** The index just after the last '/', or 0 when there is none. */
  function AfterLastSlash(q: string): (n: nat)
    ensures n <= |q| && (n > 0 ==> q[n - 1] == '/')
    ensures forall i | n <= i < |q| :: q[i] != '/'
  {
    if q == [] then 0 else if q[|q| - 1] == '/' then |q| else AfterLastSlash(q[..|q| - 1])
  }

  /**
   * POSIX `basename` of <libgen.h>: "." for the empty path, "/" for a path of slashes, otherwise
   * the last component with trailing slashes ignored.
   */
  function Basename(p: string): (b: string)
    ensures b != [] && (b == "/" || forall i | 0 <= i < |b| :: b[i] != '/')
  {
    if p == [] then "."
    else
      var q := p[..|p| - TrailingSlashes(p)];
      if q == [] then "/" else q[AfterLastSlash(q)..]
  }

  /** The base name of "dir/name" is "name". */
  lemma BasenameOfPath(dir: string, name: string)
    requires name != [] && forall i | 0 <= i < |name| :: name[i] != '/'
    ensures Basename(dir + "/" + name) == name
  {
    var d := dir + "/";
    var p := d + name;
    assert p[|p| - 1] == name[|name| - 1];
    assert TrailingSlashes(p) == 0;
    assert p[..|p| - 0] == p;
    AfterSlashOf(d, name);
  }

  /** Trailing slashes are ignored: the base name of "dir/name/" is "name". */
  lemma BasenameIgnoresTrailingSlash(dir: string, name: string)
    requires name != [] && forall i | 0 <= i < |name| :: name[i] != '/'
    ensures Basename(dir + "/" + name + "/") == name
  {
    var p := dir + "/" + name;
    var p2 := p + "/";
    assert p2[..|p2| - 1] == p;
    assert TrailingSlashes(p) == 0;
    assert TrailingSlashes(p2) == 1;
    AfterSlashOf(dir + "/", name);
  }

  /** A bare file name is its own base name. */
  lemma BasenameOfName(name: string)
    requires name != [] && forall i | 0 <= i < |name| :: name[i] != '/'
    ensures Basename(name) == name
  {
    assert name[|name| - 1] != '/';
    assert TrailingSlashes(name) == 0;
    assert name[..|name| - 0] == name;
    AfterSlashOf([], name);
    assert [] + name == name;
  }

  lemma {:induction false} AfterSlashOf(d: string, name: string)
    requires d == [] || d[|d| - 1] == '/'
    requires forall i | 0 <= i < |name| :: name[i] != '/'
    ensures AfterLastSlash(d + name) == |d| && (d + name)[|d|..] == name
    decreases |name|
  {
    var q := d + name;
    if name == [] {
      assert q == d;
    } else {
      assert q[..|q| - 1] == d + name[..|name| - 1];
      AfterSlashOf(d, name[..|name| - 1]);
    }
  }

  // ---------------------------------------------------------------------------------------------
  // config_parse_as_argv

  /** At most MAX_ARGS entries are kept; the loop stops storing tokens once argv is full. */
  function Capped(xs: seq<string>): (r: seq<string>)
    ensures |r| <= MAX_ARGS && r <= xs && (|xs| <= MAX_ARGS ==> r == xs)
  {
    if |xs| <= MAX_ARGS then xs else xs[..MAX_ARGS]
  }

  /** The argument vector for a file name and the file's contents. */
  function ConfigArgv(filename: string, contents: string): (argv: seq<string>)
    ensures 1 <= |argv| <= MAX_ARGS && argv[0] == Basename(filename)
    ensures argv[1..] <= AllTokens(Pieces(contents))
    ensures |AllTokens(Pieces(contents))| < MAX_ARGS ==> argv[1..] == AllTokens(Pieces(contents))
  {
    var all := [Basename(filename)] + AllTokens(Pieces(contents));
    assert all[1..] == AllTokens(Pieces(contents));
    Capped(all)
  }

  lemma CappedFull(a: seq<string>, b: seq<string>)
    requires |Capped(a)| == MAX_ARGS
    ensures Capped(a + b) == Capped(a)
  {
    assert (a + b)[..MAX_ARGS] == a[..MAX_ARGS];
  }

  lemma PiecesHead(s: string)
    requires s != []
    ensures AllTokens(Pieces(s)) == PieceTokens(s[..PieceLength(s)]) + AllTokens(Pieces(s[PieceLength(s)..]))
  {
    var ps := Pieces(s);
    assert ps[0] == s[..PieceLength(s)] && ps[1..] == Pieces(s[PieceLength(s)..]);
  }

  /** One `fgets` call: the piece read and the tokens it contributes ahead of the rest. */
  lemma PieceStep(text: string, pos: nat, next: nat)
    requires pos < |text| && next == pos + PieceLength(text[pos..])
    ensures next <= |text|
    ensures AllTokens(Pieces(text[pos..])) == PieceTokens(text[pos..next]) + AllTokens(Pieces(text[next..]))
  {
    var s := text[pos..];
    var n := PieceLength(s);
    PiecesHead(s);
    SuffixSlices(text, pos, n);
    var front, back := text[pos..next], text[next..];
    assert s[..n] == front && s[n..] == back;
  }

  /** The front and back of a suffix are slices of the whole text. */
  lemma SuffixSlices(text: string, pos: nat, n: nat)
    requires pos + n <= |text|
    ensures text[pos..][..n] == text[pos..pos + n] && text[pos..][n..] == text[pos + n..]
  {
  }

  lemma PieceTokensOfTrimmed(piece: string, trimmed: string)
    requires trimmed == Trim(piece)
    ensures PieceTokens(piece) == if trimmed == [] || trimmed[0] == '#' then [] else Tokens(trimmed, {' ', '\t'})
  {
  }

  /** The inner `strtok` loop: store tokens while argv has room. */
  method StoreTokens(argv: array<string>, argc: int, tokens: seq<string>, ghost done: seq<string>) returns (count: int)
    requires argv.Length == MAX_ARGS && 1 <= argc <= MAX_ARGS && argv[..argc] == Capped(done)
    modifies argv
    ensures 1 <= count <= MAX_ARGS && argv[..count] == Capped(done + tokens)
  {
    count := argc;
    var j := 0;
    while j < |tokens| && count < MAX_ARGS
      invariant 0 <= j <= |tokens| && 1 <= count <= MAX_ARGS
      invariant argv[..count] == Capped(done + tokens[..j])
    {
      assert done + tokens[..j + 1] == (done + tokens[..j]) + [tokens[j]];
      argv[count] := tokens[j];
      count := count + 1;
      j := j + 1;
    }
    if j < |tokens| {
      CappedFull(done + tokens[..j], tokens[j..]);
      assert done + tokens[..j] + tokens[j..] == done + tokens;
    } else {
      assert tokens[..j] == tokens;
    }
  }

  /** The body of the `fgets` loop: trim the piece, skip it when blank or a comment, else store its tokens. */
  method ProcessPiece(argv: array<string>, argc: int, piece: string, ghost done: seq<string>) returns (count: int)
    requires argv.Length == MAX_ARGS && 1 <= argc <= MAX_ARGS && argv[..argc] == Capped(done)
    modifies argv
    ensures 1 <= count <= MAX_ARGS && argv[..count] == Capped(done + PieceTokens(piece))
  {
    var start, end := TrimStrip(piece);
    var trimmed := piece[start..end];
    PieceTokensOfTrimmed(piece, trimmed);
    if trimmed == [] || trimmed[0] == '#' {
      assert done + [] == done;
      return argc;
    }
    var tokens := Tokens(trimmed, {' ', '\t'});
    count := StoreTokens(argv, argc, tokens, done);
  }

  lemma AppendAssociates(a: seq<string>, b: seq<string>, c: seq<string>)
    ensures (a + b) + c == a + (b + c)
  {
  }

  /** The `fgets` loop over the whole file, after argv[0] is stored. */
  method ReadPieces(argv: array<string>, text: string, ghost first: string) returns (argc: int)
    requires argv.Length == MAX_ARGS && argv[0] == first
    modifies argv
    ensures 1 <= argc <= MAX_ARGS && argv[..argc] == Capped([first] + AllTokens(Pieces(text)))
  {
    argc := 1;
    ghost var done: seq<string> := [first];
    ghost var all := [first] + AllTokens(Pieces(text));
    var pos := 0;
    while pos < |text|
      invariant 0 <= pos <= |text| && 1 <= argc <= MAX_ARGS
      invariant argv[..argc] == Capped(done)
      invariant done + AllTokens(Pieces(text[pos..])) == all
      decreases |text| - pos
    {
      var next := pos + PieceLength(text[pos..]);
      PieceStep(text, pos, next);
      var piece := text[pos..next];
      ghost var later := AllTokens(Pieces(text[next..]));
      ghost var mine := PieceTokens(piece);
      assert done + (mine + later) == all;
      argc := ProcessPiece(argv, argc, piece, done);
      AppendAssociates(done, mine, later);
      done := done + mine;
      pos := next;
    }
    assert text[pos..] == [];
    assert done == all;
  }

  /**
   * `config_parse_as_argv`: -1 for a NULL file name or output pointer, a file `fopen` cannot
   * open, or a failed allocation; otherwise 0, with `argc` entries of the fresh `argv` filled.
   */
  method ConfigParseAsArgv(filename: Option<string>, outputsGiven: bool, contents: Option<string>, allocFails: bool)
    returns (result: int, argc: int, argv: array<string>)
    ensures result == 0 || result == -1
    ensures result == 0 <==> filename.Some? && outputsGiven && contents.Some? && !allocFails
    ensures result == 0 ==> 0 <= argc <= argv.Length == MAX_ARGS && argv[..argc] == ConfigArgv(filename.value, contents.value)
  {
    argv := new string[MAX_ARGS](_ => []);
    argc := 0;
    if filename.None? || !outputsGiven || contents.None? || allocFails {
      return -1, argc, argv;
    }
    var first := Basename(filename.value);
    argv[0] := first;
    argc := ReadPieces(argv, contents.value, first);
    return 0, argc, argv;
  }
}
