/** Reading a unit file or drop-in the way systemd does: sections, assignments, comments and continued lines. */
module UnitFile {
  import opened Prelude
  import opened ComposeChain

  datatype Assignment = Assignment(section: string, key: string, value: string)

  /**
   * What has been read so far: the current section, a continued line, whether a malformed header ended the reading,
   * the start and reload commands in force, and every other assignment.
   */
  datatype Reading = Reading(
    section: Option<string>, pending: Option<string>, broken: bool,
    starts: seq<string>, reloads: seq<string>, others: seq<Assignment>)

  /** The beginning of a file, with the commands that the files before it left in force. */
  function Opening(starts: seq<string>, reloads: seq<string>): Reading {
    Reading(None, None, false, starts, reloads, [])
  }

  function StripLeft(s: string): string { if s != "" && IsSpace(s[0]) then StripLeft(s[1..]) else s }

  function StripRight(s: string): string { if s != "" && IsSpace(s[|s| - 1]) then StripRight(s[..|s| - 1]) else s }

  function Strip(s: string): string { StripRight(StripLeft(s)) }

  predicate Comment(line: string) {
    var s := StripLeft(line);
    s != "" && (s[0] == '#' || s[0] == ';')
  }

  /** The line ends in an unescaped backslash, which continues it. */
  predicate Dangling(line: string) {
    line != "" && line[|line| - 1] == '\\' && !Dangling(line[..|line| - 1])
  }

  /** An empty command clears the ones before it; a command is added to them. */
  function Commands(earlier: seq<string>, value: string): seq<string> { if value == "" then [] else earlier + [value] }

  function Assign(r: Reading, section: string, key: string, value: string): Reading {
    if section == "Service" && key == "ExecStart" then r.(starts := Commands(r.starts, value))
    else if section == "Service" && key == "ExecReload" then r.(reloads := Commands(r.reloads, value))
    else r.(others := r.others + [Assignment(section, key, value)])
  }

  function ParseLine(r: Reading, line: string): Reading {
    var s := Strip(line);
    if s == "" then r
    else if s[0] == '[' then
      if s[|s| - 1] == ']' then r.(section := Some(s[1..|s| - 1])) else r.(broken := true)
    else if r.section.None? || '=' !in s then r
    else
      var k := IndexOf(s, '=');
      Assign(r, r.section.value, Strip(s[..k]), Strip(s[k + 1..]))
  }

  function Feed(r: Reading, line: string): Reading {
    if r.broken || Comment(line) then r
    else
      var whole := (if r.pending.Some? then r.pending.value else "") + line;
      if Dangling(whole) then r.(pending := Some(whole[..|whole| - 1] + " "))
      else ParseLine(r.(pending := None), whole)
  }

  function FeedAll(r: Reading, lines: seq<string>): Reading
    decreases |lines|
  {
    if lines == [] then r else FeedAll(Feed(r, lines[0]), lines[1..])
  }

  /** The whole file; a line still continued at its end counts as it is. */
  function Read(r: Reading, text: string): Reading {
    var last := FeedAll(r, TextLines(text));
    if last.broken || last.pending.None? then last else ParseLine(last.(pending := None), last.pending.value)
  }

  /** Nothing is continued and nothing was malformed. */
  predicate Clean(r: Reading) { r.pending.None? && !r.broken }

  // ------------------------------------------------------------------- lemmas

  lemma {:induction false} FeedAllJoined(r: Reading, a: seq<string>, b: seq<string>)
    ensures FeedAll(r, a + b) == FeedAll(FeedAll(r, a), b)
    decreases |a|
  {
    hide Feed;
    if a == [] {
      assert a + b == b;
    } else {
      assert (a + b)[1..] == a[1..] + b;
      FeedAllJoined(Feed(r, a[0]), a[1..], b);
    }
  }

  /** Starts and ends with a character that is neither space nor backslash, or is empty. */
  predicate Solid(v: string) {
    v == "" || (!IsSpace(v[0]) && !IsSpace(v[|v| - 1]) && v[|v| - 1] != '\\')
  }

  predicate KeyName(key: string) {
    key != "" && forall c | c in key :: 'a' <= c <= 'z' || 'A' <= c <= 'Z'
  }

  lemma StripSolid(v: string)
    requires Solid(v)
    ensures Strip(v) == v && StripLeft(v) == v
  {
  }

  lemma CutAssignment(key: string, value: string)
    requires KeyName(key)
    ensures var line := key + "=" + value;
      && '=' in line && IndexOf(line, '=') == |key|
      && line[..|key|] == key && line[|key| + 1..] == value
  {
    assert '=' !in key;
    IndexOfSplit(key, '=', value);
    assert key + "=" + value == key + ['='] + value;
    assert (key + "=" + value)[|key|] == '=';
  }

  /** A solid line that is no comment is parsed as it is. */
  lemma WholeLine(r: Reading, line: string)
    requires Clean(r) && Solid(line) && line != "" && line[0] != '#' && line[0] != ';'
    ensures Feed(r, line) == ParseLine(r, line)
  {
    hide ParseLine, Strip, StripLeft, Dangling;
    StripSolid(line);
    NotDangling(line);
    assert "" + line == line;
    assert r.(pending := None) == r;
  }

  lemma SolidAssignment(key: string, value: string)
    requires KeyName(key) && Solid(value)
    ensures Solid(key + "=" + value) && Solid(key) && (key + "=" + value)[0] == key[0]
  {
    var line := key + "=" + value;
    assert key[0] in key && key[|key| - 1] in key;
    assert line[0] == key[0] && line[|line| - 1] == if value == "" then '=' else value[|value| - 1];
  }

  /** A line that assigns a solid value to a key in a section does just that. */
  lemma AssignLine(r: Reading, key: string, value: string)
    requires Clean(r) && r.section.Some? && KeyName(key) && Solid(value)
    ensures Feed(r, key + "=" + value) == Assign(r, r.section.value, key, value)
  {
    hide Assign, Strip, Feed, Solid, IndexOf;
    assert key[0] in key;
    SolidAssignment(key, value);
    CutAssignment(key, value);
    StripSolid(key + "=" + value);
    StripSolid(key);
    StripSolid(value);
    WholeLine(r, key + "=" + value);
  }

  lemma NotDangling(line: string)
    requires line == "" || line[|line| - 1] != '\\'
    ensures !Dangling(line)
  {
  }

  lemma HeaderLine(r: Reading)
    requires Clean(r)
    ensures Feed(r, "[Service]") == r.(section := Some("Service"))
  {
    hide Strip, StripLeft, Dangling;
    var line := "[Service]";
    assert line[0] == '[' && line[8] == ']' && |line| == 9;
    StripSolid(line);
    NotDangling(line);
    assert "" + line == line && line[1..8] == "Service";
    assert r.(pending := None) == r;
  }

  lemma BlankLine(r: Reading)
    requires Clean(r)
    ensures Feed(r, "") == r
  {
    assert "" + "" == "";
    assert r.(pending := None) == r;
  }

  // ------------------------------------------------------ a header behind a continued line

  lemma {:induction false} StripLeftJoined(w: string, line: string)
    requires line != "" && !IsSpace(line[0])
    ensures StripLeft(w + line) == StripLeft(w) + line
    decreases |w|
  {
    if w == "" {
      assert w + line == line;
    } else if IsSpace(w[0]) {
      assert (w + line)[1..] == w[1..] + line;
      StripLeftJoined(w[1..], line);
    }
  }

  lemma {:induction false} StripRightStarts(s: string)
    requires s != "" && !IsSpace(s[0])
    ensures StripRight(s) != "" && StripRight(s)[0] == s[0]
    decreases |s|
  {
    if IsSpace(s[|s| - 1]) {
      StripRightStarts(s[..|s| - 1]);
    }
  }

  lemma {:induction false} StripLeftStarts(s: string)
    ensures StripLeft(s) == "" || !IsSpace(StripLeft(s)[0])
    decreases |s|
  {
    if s != "" && IsSpace(s[0]) {
      StripLeftStarts(s[1..]);
    }
  }

  /** What stands before a header on one continued line. */
  lemma StripBeforeHeader(w: string)
    ensures Strip(w + "[Service]") == StripLeft(w) + "[Service]"
    ensures Strip(w) == "" <==> StripLeft(w) == ""
    ensures Strip(w) != "" ==> Strip(w)[0] == StripLeft(w)[0]
  {
    var line := "[Service]";
    assert line[0] == '[' && line[8] == ']' && |line| == 9;
    StripLeftJoined(w, line);
    var s := StripLeft(w) + line;
    assert s[|s| - 1] == ']';
    StripLeftStarts(w);
    if StripLeft(w) != "" {
      StripRightStarts(StripLeft(w));
    }
  }

  /** The header of a section takes effect, or is swallowed by a line continued into it. */
  lemma HeaderSwallowed(r: Reading)
    requires !r.broken && r.pending.Some?
    ensures Feed(r, "[Service]") == ParseLine(r.(pending := None), r.pending.value + "[Service]")
  {
    hide Strip, ParseLine, Dangling;
    var line := "[Service]";
    var whole := r.pending.value + line;
    assert line[0] == '[' && line[8] == ']' && |line| == 9;
    assert whole[|whole| - 1] == ']';
    StripSolid(line);
    NotDangling(whole);
  }

  /** A blank line, or one that is neither header nor comment and is not continued. */
  predicate Inner(line: string) { line == "" || (Solid(line) && line[0] !in "[#;") }

  /** Such a line leaves the commands alone outside the service section. */
  lemma ElsewhereLine(r: Reading, line: string)
    requires Clean(r) && r.section != Some("Service") && Inner(line)
    ensures var after := Feed(r, line);
      Clean(after) && after.section == r.section && after.starts == r.starts && after.reloads == r.reloads
  {
    hide Strip, StripLeft, IndexOf;
    if line == "" {
      BlankLine(r);
    } else {
      assert line[0] != '[' && line[0] != '#' && line[0] != ';';
      WholeLine(r, line);
      StripSolid(line);
    }
  }

  lemma {:induction false} ElsewhereLines(r: Reading, lines: seq<string>)
    requires Clean(r) && r.section != Some("Service")
    requires forall line | line in lines :: Inner(line)
    ensures var after := FeedAll(r, lines); Clean(after) && after.starts == r.starts && after.reloads == r.reloads
    decreases |lines|
  {
    hide Feed, Inner;
    if lines != [] {
      ElsewhereLine(r, lines[0]);
      ElsewhereLines(Feed(r, lines[0]), lines[1..]);
    }
  }

  lemma {:induction false} BrokenStays(r: Reading, lines: seq<string>)
    requires r.broken
    ensures FeedAll(r, lines) == r
    decreases |lines|
  {
    if lines != [] {
      BrokenStays(r, lines[1..]);
    }
  }

  // ------------------------------------------------------- files that end in a newline

  /** A continued line ends in the space that took the place of its backslash. */
  predicate Spaced(r: Reading) {
    r.pending.Some? ==> r.pending.value != "" && r.pending.value[|r.pending.value| - 1] == ' '
  }

  lemma {:induction false} FeedAllSpaced(r: Reading, lines: seq<string>)
    requires Spaced(r)
    ensures Spaced(FeedAll(r, lines))
    decreases |lines|
  {
    hide ParseLine, Comment, Dangling;
    if lines != [] {
      FeedSpaced(r, lines[0]);
      FeedAllSpaced(Feed(r, lines[0]), lines[1..]);
    }
  }

  lemma FeedSpaced(r: Reading, line: string)
    requires Spaced(r)
    ensures Spaced(Feed(r, line))
  {
    hide Comment, Strip;
  }

  /** A file that ends in a newline continues no line beyond its end. */
  lemma NewlineEnds(r: Reading, text: string)
    requires Spaced(r)
    ensures var last := FeedAll(r, TextLines(text + "\n")); last.pending.None? || last.broken
  {
    var lines := TextLines(text);
    TextLinesJoined(text, "");
    assert text + "\n" + "" == text + "\n";
    assert TextLines("") == [""];
    FeedAllJoined(r, lines, [""]);
    FeedAllSpaced(r, lines);
    var before := FeedAll(r, lines);
    assert FeedAll(before, [""]) == Feed(before, "") by { assert [""][1..] == []; }
    EmptyLineEnds(before);
  }

  lemma EmptyLineEnds(r: Reading)
    requires Spaced(r)
    ensures Feed(r, "").pending.None? || Feed(r, "").broken
  {
    hide Strip;
    if r.pending.Some? {
      assert r.pending.value + "" == r.pending.value;
      NotDangling(r.pending.value);
    }
  }
}
