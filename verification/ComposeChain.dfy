/**
 * The compose chain of the control-plane unit: what systemd shows for a command,
 * how that text is split into arguments, and how an argument list is divided into
 * a compose prefix and an `up` suffix.
 */
module ComposeChain {
  import opened Prelude

  // ---------------------------------------------------------------- lexer

  /** The states of the POSIX shell lexer with whitespace splitting and no comments. */
  datatype Mode = Gap | Word | Quoted(mark: char) | Escaped(inQuotes: bool)

  datatype Lexer = Lexer(mode: Mode, token: string, quoted: bool, out: seq<string>)

  predicate IsSpace(c: char) { c == ' ' || c == '\t' || c == '\r' || c == '\n' }

  function Step(l: Lexer, c: char): Lexer {
    match l.mode
    case Gap =>
      if IsSpace(c) then l
      else if c == '\\' then l.(mode := Escaped(false))
      else if c == '\'' || c == '"' then l.(mode := Quoted(c))
      else l.(mode := Word, token := [c])
    case Word =>
      if IsSpace(c) then Emit(l).(mode := Gap)
      else if c == '\'' || c == '"' then l.(mode := Quoted(c))
      else if c == '\\' then l.(mode := Escaped(false))
      else l.(token := l.token + [c])
    case Quoted(mark) =>
      if c == mark then l.(mode := Word, quoted := true)
      else if c == '\\' && mark == '"' then l.(mode := Escaped(true), quoted := true)
      else l.(token := l.token + [c], quoted := true)
    case Escaped(inQuotes) =>
      var kept := if inQuotes && c != '\\' && c != '"' then "\\" else "";
      l.(token := l.token + kept + [c], mode := if inQuotes then Quoted('"') else Word)
  }

  function Emit(l: Lexer): Lexer {
    if l.token != "" || l.quoted then Lexer(l.mode, "", false, l.out + [l.token]) else l
  }

  function Scan(l: Lexer, s: string): Lexer
    decreases |s|
  {
    if s == "" then l else Scan(Step(l, s[0]), s[1..])
  }

  /** The words of `s`; None for an unclosed quotation or a trailing escape. */
  function Split(s: string): Option<seq<string>> {
    var l := Scan(Lexer(Gap, "", false, []), s);
    if l.mode.Gap? || l.mode.Word? then Some(Emit(l).out) else None
  }

  /** Arguments joined by single spaces: the text of a unit line. */
  function UnitLine(argv: seq<string>): string {
    if argv == [] then "" else if |argv| == 1 then argv[0] else argv[0] + " " + UnitLine(argv[1..])
  }

  // ------------------------------------------------------------- printing

  predicate PlainChar(c: char) {
    'A' <= c <= 'Z' || 'a' <= c <= 'z' || '0' <= c <= '9' || c in "_./:@=-"
  }

  /** The only argument shape allowed in a unit: non-empty, no space, quote, escape or expansion. */
  predicate Plain(arg: string) { arg != "" && forall c | c in arg :: PlainChar(c) }

  predicate AllPlain(argv: seq<string>) { forall a | a in argv :: Plain(a) }

  lemma {:induction false} ScanConcat(l: Lexer, a: string, b: string)
    ensures Scan(l, a + b) == Scan(Scan(l, a), b)
    decreases |a|
  {
    if a == "" {
      assert a + b == b;
    } else {
      assert (a + b)[1..] == a[1..] + b;
      ScanConcat(Step(l, a[0]), a[1..], b);
    }
  }

  lemma {:induction false} ScanInWord(l: Lexer, w: string)
    requires l.mode == Word
    requires forall c | c in w :: PlainChar(c)
    ensures Scan(l, w) == l.(token := l.token + w)
    decreases |w|
  {
    if w == "" {
      assert l.token + w == l.token;
    } else {
      assert PlainChar(w[0]);
      assert l.token + w == l.token + [w[0]] + w[1..];
      ScanInWord(l.(token := l.token + [w[0]]), w[1..]);
    }
  }

  lemma ScanPlain(out: seq<string>, w: string)
    requires Plain(w)
    ensures Scan(Lexer(Gap, "", false, out), w) == Lexer(Word, w, false, out)
  {
    assert PlainChar(w[0]);
    assert [w[0]] + w[1..] == w;
    ScanInWord(Lexer(Word, [w[0]], false, out), w[1..]);
  }

  lemma ScanPlainThenSpace(out: seq<string>, w: string, rest: string)
    requires Plain(w)
    ensures Scan(Lexer(Gap, "", false, out), w + " " + rest) == Scan(Lexer(Gap, "", false, out + [w]), rest)
  {
    var l := Lexer(Gap, "", false, out);
    ScanPlain(out, w);
    ScanConcat(l, w, " " + rest);
    assert w + (" " + rest) == w + " " + rest;
    assert (" " + rest)[1..] == rest;
  }

  /** What splitting leaves in its output once `out` has been collected and `line` is still to come. */
  lemma {:induction false} ScanLine(out: seq<string>, argv: seq<string>)
    requires AllPlain(argv)
    ensures var l := Scan(Lexer(Gap, "", false, out), UnitLine(argv));
            (l.mode.Gap? || l.mode.Word?) && Emit(l).out == out + argv
    decreases |argv|
  {
    if argv == [] {
      assert out + argv == out;
    } else if |argv| == 1 {
      ScanPlain(out, argv[0]);
      assert [argv[0]] == argv;
    } else {
      ScanPlainThenSpace(out, argv[0], UnitLine(argv[1..]));
      ScanLine(out + [argv[0]], argv[1..]);
      assert out + [argv[0]] + argv[1..] == out + argv;
    }
  }

  /** Splitting a printed unit line gives back exactly the arguments. */
  lemma SplitUnitLine(argv: seq<string>)
    requires AllPlain(argv)
    ensures Split(UnitLine(argv)) == Some(argv)
  {
    ScanLine([], argv);
    assert [] + argv == argv;
  }

  // --------------------------------------------------- what systemd shows

  /** The characters Python's `strip` removes. */
  predicate Blank(c: char) {
    var n := c as int;
    9 <= n <= 13 || 28 <= n <= 32 || n in {133, 160, 5760, 8232, 8233, 8239, 8287, 12288} || 8192 <= n <= 8202
  }

  function TrimLeft(s: string): string {
    if s != "" && Blank(s[0]) then TrimLeft(s[1..]) else s
  }

  function TrimRight(s: string): string {
    if s != "" && Blank(s[|s| - 1]) then TrimRight(s[..|s| - 1]) else s
  }

  const BEFORE_PATH := "{ path="
  const BEFORE_ARGV := " ; argv[]="
  const BEFORE_REST := " ; ignore_errors="

  /** The single-command display of an Exec property. */
  function Display(path: string, line: string, rest: string): string {
    BEFORE_PATH + path + BEFORE_ARGV + line + BEFORE_REST + rest + " }"
  }

  predicate Unsupported(c: char) {
    c == '\\' || c == '\n' || c == '\r' || c == '$' || c == '%' || c == ';'
  }

  /**
   * The argument list shown for one command. The text between the markers may not
   * hold a semicolon, so each marker is found at the first semicolon.
   */
  function SystemdArgv(value: string): Option<seq<string>> {
    var v := TrimRight(TrimLeft(value));
    if !(BEFORE_PATH <= v) then None else
    var shown := ShownLine(v[|BEFORE_PATH|..]);
    if shown.None? then None else
    var (line, tail) := shown.value;
    if !ClosesDisplay(tail) || (exists c | c in line :: Unsupported(c)) then None else Split(line)
  }

  predicate ClosesDisplay(tail: string) { |tail| >= 2 && tail[|tail| - 2..] == " }" && '\n' !in tail }

  /** The argument text after a non-empty path, and what follows it. */
  function ShownLine(s: string): Option<(string, string)> {
    var afterPath := FieldAfter(s, BEFORE_ARGV);
    if afterPath.None? || afterPath.value.0 == "" then None
    else FieldAfter(afterPath.value.1, BEFORE_REST)
  }

  /** Cuts `s` at `mark`, whose semicolon must be the first one in `s`. */
  function FieldAfter(s: string, mark: string): Option<(string, string)>
    requires |mark| >= 2 && mark[0] == ' ' && mark[1] == ';'
  {
    var k := IndexOf(s, ';');
    if 0 < k < |s| && OccursAt(s, mark, k - 1) then Some((s[..k - 1], s[k - 1 + |mark|..])) else None
  }

  lemma FieldAfterMark(a: string, mark: string, b: string)
    requires |mark| >= 2 && mark[0] == ' ' && mark[1] == ';' && ';' !in a
    ensures FieldAfter(a + mark + b, mark) == Some((a, b))
  {
    var s := a + mark + b;
    assert s == (a + [' ']) + [';'] + (mark[2..] + b);
    IndexOfSplit(a + [' '], ';', mark[2..] + b);
    assert s[|a|..|a| + |mark|] == mark;
    assert s[|a| + |mark|..] == b;
    assert s[..|a|] == a;
  }

  lemma ShownLineOf(path: string, line: string, tail: string)
    requires path != "" && ';' !in path && ';' !in line
    ensures ShownLine(path + BEFORE_ARGV + (line + BEFORE_REST + tail)) == Some((line, tail))
  {
    FieldAfterMark(path, BEFORE_ARGV, line + BEFORE_REST + tail);
    FieldAfterMark(line, BEFORE_REST, tail);
  }

  lemma DisplayFlat(path: string, line: string, rest: string)
    ensures Display(path, line, rest)
         == BEFORE_PATH + (path + BEFORE_ARGV + (line + BEFORE_REST + (rest + " }")))
  {
  }

  lemma Untrimmed(v: string)
    requires v != "" && !Blank(v[0]) && !Blank(v[|v| - 1])
    ensures TrimRight(TrimLeft(v)) == v
  {
  }

  lemma ReadBack(value: string, s: string, line: string, tail: string)
    requires value == BEFORE_PATH + s && s != "" && !Blank(s[|s| - 1])
    requires ShownLine(s) == Some((line, tail)) && ClosesDisplay(tail)
    requires forall c | c in line :: !Unsupported(c)
    ensures SystemdArgv(value) == Split(line)
  {
    assert value[0] == '{' && value[|value| - 1] == s[|s| - 1];
    Untrimmed(value);
    assert value[|BEFORE_PATH|..] == s;
  }

  lemma Closed(rest: string)
    requires '\n' !in rest
    ensures ClosesDisplay(rest + " }")
  {
    var tail := rest + " }";
    assert tail[|tail| - 2..] == " }";
  }

  /** A display whose parts are separable is cut back into exactly those parts. */
  lemma DisplayParts(path: string, line: string, rest: string)
    requires path != "" && ';' !in path && '\n' !in rest
    requires forall c | c in line :: !Unsupported(c)
    ensures SystemdArgv(Display(path, line, rest)) == Split(line)
  {
    var tail := rest + " }";
    var s := path + BEFORE_ARGV + (line + BEFORE_REST + tail);
    DisplayFlat(path, line, rest);
    ShownLineOf(path, line, tail);
    Closed(rest);
    assert s[|s| - 1] == tail[|tail| - 1] == '}';
    ReadBack(Display(path, line, rest), s, line, tail);
  }

  /** Any argument list printed in a unit is read back from the text systemd shows for it. */
  lemma DisplayRoundTrip(path: string, argv: seq<string>, rest: string)
    requires path != "" && ';' !in path && '\n' !in rest && AllPlain(argv)
    ensures SystemdArgv(Display(path, UnitLine(argv), rest)) == Some(argv)
  {
    hide SystemdArgv, Display, Split, UnitLine, AllPlain;
    UnitLineChars(argv);
    DisplayParts(path, UnitLine(argv), rest);
    SplitUnitLine(argv);
  }

  lemma {:induction false} UnitLineChars(argv: seq<string>)
    requires AllPlain(argv)
    ensures forall c | c in UnitLine(argv) :: PlainChar(c) || c == ' '
    decreases |argv|
  {
    if |argv| == 1 {
      assert Plain(argv[0]);
    } else if |argv| > 1 {
      assert Plain(argv[0]);
      UnitLineChars(argv[1..]);
    }
  }

  // ---------------------------------------------------------- compose parts

  const DOCKER := ["/usr/bin/docker", "compose"]
  const OPTIONS := {"--env-file", "--profile", "--project-directory", "--project-name", "-p", "-f"}
  const PATH_OPTIONS := {"--env-file", "--project-directory", "-f"}

  predicate Absolute(path: string) { path != "" && path[0] == '/' }

  /** An allowed option with its value at position `i`. */
  predicate PairAt(argv: seq<string>, i: nat) {
    i + 1 < |argv| && argv[i] in OPTIONS && (argv[i] in PATH_OPTIONS ==> Absolute(argv[i + 1]))
  }

  ghost predicate OptionPairs(argv: seq<string>, n: nat) {
    2 <= n <= |argv| && n % 2 == 0 && argv[..2] == DOCKER &&
    forall i | 2 <= i < n && i % 2 == 0 :: PairAt(argv, i)
  }

  ghost predicate NamesFile(argv: seq<string>, n: nat)
    requires n <= |argv|
  {
    exists i | 2 <= i < n && i % 2 == 0 :: argv[i] == "-f"
  }

  /** `argv` is a prefix of `n` words made of option/value pairs with an explicit file, then `up`. */
  ghost predicate ChainAt(argv: seq<string>, n: nat) {
    && n < |argv| && |argv| >= 5
    && OptionPairs(argv, n)
    && argv[n] == "up"
    && NamesFile(argv, n)
    && "control-plane" in argv[n + 1..]
    && AllPlain(argv)
  }

  datatype Parts = Parts(prefix: seq<string>, suffix: seq<string>)

  /** The division point is determined by the arguments: an option position never holds `up`. */
  lemma ChainPointUnique(argv: seq<string>, n: nat, m: nat)
    requires ChainAt(argv, n) && ChainAt(argv, m)
    ensures n == m
  {
    assert n < m ==> PairAt(argv, n);
    assert m < n ==> PairAt(argv, m);
  }

  ghost function PartsOf(argv: seq<string>): Option<Parts> {
    if exists n: nat :: ChainAt(argv, n)
    then var n: nat :| ChainAt(argv, n); Some(Parts(argv[..n], argv[n..]))
    else None
  }

  lemma PartsAt(argv: seq<string>, n: nat)
    requires ChainAt(argv, n)
    ensures PartsOf(argv) == Some(Parts(argv[..n], argv[n..]))
  {
    forall m: nat | ChainAt(argv, m) ensures m == n {
      ChainPointUnique(argv, n, m);
    }
  }

  /** Divides an argument list, or refuses it; it is accepted exactly when a division exists. */
  method ComposeParts(argv: seq<string>) returns (r: Option<Parts>)
    ensures r == PartsOf(argv)
    ensures r.Some? ==> r.value.prefix + r.value.suffix == argv && ChainAt(argv, |r.value.prefix|)
  {
    if |argv| < 5 || argv[..2] != DOCKER {
      return None;
    }
    var index, files := 2, 0;
    while index < |argv| && argv[index] != "up"
      invariant OptionPairs(argv, index)
      invariant files >= 0 && (files > 0 <==> NamesFile(argv, index))
    {
      if argv[index] !in OPTIONS || index + 1 >= |argv| {
        NoChainFrom(argv, index);
        return None;
      }
      if argv[index] in PATH_OPTIONS && !Absolute(argv[index + 1]) {
        NoChainFrom(argv, index);
        return None;
      }
      FileCount(argv, index);
      if argv[index] == "-f" {
        files := files + 1;
      }
      index := index + 2;
    }
    if index < |argv| {
      ChainOnlyAt(argv, index);
    } else {
      NoChainAtEnd(argv);
    }
    if files == 0 || index >= |argv| || "control-plane" !in argv[index + 1..] {
      return None;
    }
    if exists x | x in argv :: !Plain(x) {
      return None;
    }
    PartsAt(argv, index);
    return Some(Parts(argv[..index], argv[index..]));
  }

  lemma FileCount(argv: seq<string>, k: nat)
    requires OptionPairs(argv, k) && k + 2 <= |argv|
    ensures NamesFile(argv, k + 2) <==> NamesFile(argv, k) || argv[k] == "-f"
  {
    if NamesFile(argv, k) {
      var i :| 2 <= i < k && i % 2 == 0 && argv[i] == "-f";
      assert argv[i] == "-f" && i < k + 2;
    }
  }

  /** Every division lies at or after a scanned prefix. */
  lemma ChainNotBefore(argv: seq<string>, k: nat, n: nat)
    requires OptionPairs(argv, k) && ChainAt(argv, n)
    ensures n >= k
  {
    assert n < k ==> PairAt(argv, n);
  }

  /** A bad pair right after the scanned prefix leaves no division. */
  lemma NoChainFrom(argv: seq<string>, k: nat)
    requires OptionPairs(argv, k) && k < |argv| && argv[k] != "up" && !PairAt(argv, k)
    ensures forall n: nat :: !ChainAt(argv, n)
  {
    forall n: nat ensures !ChainAt(argv, n) {
      if ChainAt(argv, n) {
        ChainNotBefore(argv, k, n);
        assert false;
      }
    }
  }

  lemma NoChainAtEnd(argv: seq<string>)
    requires OptionPairs(argv, |argv|)
    ensures forall n: nat :: !ChainAt(argv, n)
  {
    forall n: nat ensures !ChainAt(argv, n) {
      if ChainAt(argv, n) {
        ChainNotBefore(argv, |argv|, n);
        assert false;
      }
    }
  }

  lemma ChainOnlyAt(argv: seq<string>, k: nat)
    requires OptionPairs(argv, k) && k < |argv| && argv[k] == "up"
    ensures forall n: nat | ChainAt(argv, n) :: n == k
  {
    forall n: nat | ChainAt(argv, n) ensures n == k {
      ChainNotBefore(argv, k, n);
      assert k < n ==> PairAt(argv, k);
    }
  }

  /** Adding one more absolute file to an accepted chain extends its prefix by that pair only. */
  lemma AppendFile(argv: seq<string>, path: string)
    requires PartsOf(argv).Some? && Plain(path) && Absolute(path)
    ensures var Parts(prefix, suffix) := PartsOf(argv).value;
            PartsOf(prefix + ["-f", path] + suffix) == Some(Parts(prefix + ["-f", path], suffix))
  {
    hide ChainAt, PartsOf, Plain, Absolute;
    var n := ChainOf(argv);
    var prefix, suffix := argv[..n], argv[n..];
    var longer := prefix + ["-f", path] + suffix;
    LongerChain(argv, n, path, longer);
    PartsAt(longer, n + 2);
    assert longer[..n + 2] == prefix + ["-f", path] && longer[n + 2..] == suffix;
  }

  lemma ChainOf(argv: seq<string>) returns (n: nat)
    requires PartsOf(argv).Some?
    ensures ChainAt(argv, n) && n <= |argv| && PartsOf(argv) == Some(Parts(argv[..n], argv[n..]))
  {
    n :| ChainAt(argv, n);
    PartsAt(argv, n);
  }

  lemma LongerChain(argv: seq<string>, n: nat, path: string, longer: seq<string>)
    requires ChainAt(argv, n) && Plain(path) && Absolute(path)
    requires longer == argv[..n] + ["-f", path] + argv[n..]
    ensures ChainAt(longer, n + 2)
  {
    LongerPairs(argv, n, path, longer);
    LongerPlain(argv, n, path, longer);
    hide OptionPairs, AllPlain, Plain, Absolute;
    assert longer[n] == "-f" && longer[n + 2] == argv[n];
    assert n % 2 == 0 && n >= 2 by { EvenPairs(argv, n); }
    assert longer[n + 3..] == argv[n + 1..];
  }

  lemma EvenPairs(argv: seq<string>, n: nat)
    requires OptionPairs(argv, n)
    ensures n % 2 == 0 && n >= 2
  {
  }

  lemma LongerPlain(argv: seq<string>, n: nat, path: string, longer: seq<string>)
    requires n <= |argv| && AllPlain(argv) && Plain(path)
    requires longer == argv[..n] + ["-f", path] + argv[n..]
    ensures AllPlain(longer)
  {
    assert Plain("-f");
    hide Plain;
    forall a | a in longer ensures Plain(a) {
      assert a in argv || a == path || a == "-f";
    }
  }

  lemma LongerPairs(argv: seq<string>, n: nat, path: string, longer: seq<string>)
    requires OptionPairs(argv, n) && Absolute(path)
    requires longer == argv[..n] + ["-f", path] + argv[n..]
    ensures OptionPairs(longer, n + 2)
  {
    assert longer[..2] == argv[..2];
    forall i | 2 <= i < n + 2 && i % 2 == 0 ensures PairAt(longer, i) {
      if i < n {
        assert PairAt(argv, i);
      }
    }
  }

  // ------------------------------------------------------------ start guards

  /** The guard that compares the shown start with an expected text. */
  predicate TextGuard(start: seq<string>, expected: string) { Split(expected) == Some(start) }

  /** The guard that compares a digest of the printed start with an expected digest. */
  predicate HashGuard(sha256: string -> string, start: seq<string>, expected: string) {
    sha256(UnitLine(start)) == expected
  }

  /** On chains that `ComposeParts` accepts, both guards for the same line admit the same start. */
  lemma GuardsAgree(sha256: string -> string, start: seq<string>, argv: seq<string>)
    requires Injective(sha256)
    requires PartsOf(start).Some? && AllPlain(argv)
    ensures TextGuard(start, UnitLine(argv)) <==> HashGuard(sha256, start, sha256(UnitLine(argv)))
    ensures TextGuard(start, UnitLine(argv)) <==> start == argv
  {
    SplitUnitLine(argv);
    SplitUnitLine(start);
    if HashGuard(sha256, start, sha256(UnitLine(argv))) {
      assert UnitLine(start) == UnitLine(argv);
    }
  }

  /** Without that acceptance the digest guard is weaker: a quoted space prints like a separator. */
  lemma GuardsDifferOnSpaces(sha256: string -> string)
    ensures var start, argv := ["a b"], ["a", "b"];
            HashGuard(sha256, start, sha256(UnitLine(argv))) && !TextGuard(start, UnitLine(argv))
  {
    assert AllPlain(["a", "b"]);
    SplitUnitLine(["a", "b"]);
    assert UnitLine(["a", "b"]) == "a b";
  }
}
