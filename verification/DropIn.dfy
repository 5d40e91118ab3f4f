/** What systemd reads from the drop-ins of a rollout, and what the overlays beside them pin. */
module DropIn {
  import opened Prelude
  import opened ComposeChain
  import opened RolloutWorld
  import opened Rollout
  import opened UnitFile

  // ----------------------------------------------------------- lines of a command

  lemma {:induction false} UnitLineEnds(argv: seq<string>)
    requires AllPlain(argv) && argv != []
    ensures UnitLine(argv) != ""
    ensures PlainChar(UnitLine(argv)[0]) && PlainChar(UnitLine(argv)[|UnitLine(argv)| - 1])
    decreases |argv|
  {
    var a := argv[0];
    assert Plain(a) && a[0] in a && a[|a| - 1] in a;
    if |argv| > 1 {
      UnitLineEnds(argv[1..]);
      var line, rest := UnitLine(argv), UnitLine(argv[1..]);
      assert line == a + " " + rest;
      assert line[0] == a[0] && line[|line| - 1] == rest[|rest| - 1];
    }
  }

  lemma UnitLineSolid(argv: seq<string>)
    requires AllPlain(argv) && argv != []
    ensures Solid(UnitLine(argv)) && UnitLine(argv) != "" && '\n' !in UnitLine(argv)
  {
    UnitLineEnds(argv);
    UnitLineChars(argv);
    hide UnitLine;
  }

  // --------------------------------------------------------------- service section

  /** Clearing a command and setting it again leaves exactly the new one. */
  lemma SetCommands(r: Reading, start: string, reload: Option<string>)
    requires Clean(r) && Solid(start) && start != ""
    requires reload.Some? ==> Solid(reload.value) && reload.value != ""
    ensures FeedAll(r, ["[Service]", "ExecStart=", "ExecStart=" + start]
                       + (if reload.Some? then ["ExecReload=", "ExecReload=" + reload.value] else []) + [""])
         == r.(section := Some("Service"), starts := [start], reloads := if reload.Some? then [reload.value] else r.reloads)
  {
    hide Feed, FeedAll;
    var head := ["[Service]", "ExecStart=", "ExecStart=" + start];
    var tail := if reload.Some? then ["ExecReload=", "ExecReload=" + reload.value] else [];
    FeedAllJoined(r, head + tail, [""]);
    FeedAllJoined(r, head, tail);
    var started := r.(section := Some("Service"), starts := [start]);
    assert FeedAll(r, head) == started by { StartLines(r, start); }
    var done := started.(reloads := if reload.Some? then [reload.value] else r.reloads);
    assert FeedAll(started, tail) == done by {
      if reload.Some? {
        ReloadLines(started, reload.value);
      } else {
        FeedNothing(started);
      }
    }
    FeedOne(done, "");
    BlankLine(done);
  }

  lemma FeedNothing(r: Reading)
    ensures FeedAll(r, []) == r
  {
  }

  lemma FeedOne(r: Reading, line: string)
    ensures FeedAll(r, [line]) == Feed(r, line)
  {
    assert [line][1..] == [];
  }

  lemma FeedTwo(r: Reading, a: string, b: string)
    ensures FeedAll(r, [a, b]) == Feed(Feed(r, a), b)
  {
    hide Feed, FeedAll;
    assert [a, b] == [a] + [b];
    FeedAllJoined(r, [a], [b]);
    FeedOne(r, a);
    FeedOne(Feed(r, a), b);
  }

  lemma StartLines(r: Reading, start: string)
    requires Clean(r) && Solid(start) && start != ""
    ensures FeedAll(r, ["[Service]", "ExecStart=", "ExecStart=" + start])
         == r.(section := Some("Service"), starts := [start])
  {
    assert Solid("");
    hide Feed, FeedAll, Solid;
    assert "ExecStart" + "=" + "" == "ExecStart=" && "ExecStart" + "=" + start == "ExecStart=" + start;
    var lines := ["[Service]", "ExecStart=", "ExecStart=" + start];
    assert lines == ["[Service]"] + ["ExecStart=", "ExecStart=" + start];
    FeedAllJoined(r, ["[Service]"], ["ExecStart=", "ExecStart=" + start]);
    FeedOne(r, "[Service]");
    HeaderLine(r);
    var begun := r.(section := Some("Service"));
    FeedTwo(begun, "ExecStart=", "ExecStart=" + start);
    CommandLine(begun, "ExecStart", "");
    CommandLine(begun.(starts := []), "ExecStart", start);
    assert [] + [start] == [start];
  }

  lemma ReloadLines(r: Reading, reload: string)
    requires Clean(r) && r.section == Some("Service") && Solid(reload) && reload != ""
    ensures FeedAll(r, ["ExecReload=", "ExecReload=" + reload]) == r.(reloads := [reload])
  {
    assert Solid("");
    hide Feed, FeedAll, Solid;
    assert "ExecReload" + "=" + "" == "ExecReload=" && "ExecReload" + "=" + reload == "ExecReload=" + reload;
    FeedTwo(r, "ExecReload=", "ExecReload=" + reload);
    CommandLine(r, "ExecReload", "");
    CommandLine(r.(reloads := []), "ExecReload", reload);
    assert [] + [reload] == [reload];
  }

  lemma CommandLine(r: Reading, key: string, value: string)
    requires Clean(r) && r.section == Some("Service") && Solid(value)
    requires key == "ExecStart" || key == "ExecReload"
    ensures Feed(r, key + "=" + value) == Assign(r, "Service", key, value)
  {
    assert KeyName("ExecStart") && KeyName("ExecReload");
    hide Feed, Assign, KeyName, Solid;
    AssignLine(r, key, value);
  }

  /** The lines of the section a rollout writes. */
  lemma ServiceLines(start: string, reload: Option<string>)
    requires '\n' !in start && (reload.Some? ==> '\n' !in reload.value)
    ensures TextLines("[Service]\nExecStart=\nExecStart=" + start + "\n"
                      + if reload.Some? then "ExecReload=\nExecReload=" + reload.value + "\n" else "")
         == ["[Service]", "ExecStart=", "ExecStart=" + start]
            + (if reload.Some? then ["ExecReload=", "ExecReload=" + reload.value] else []) + [""]
  {
    hide TextLines;
    var rest := if reload.Some? then "ExecReload=\nExecReload=" + reload.value + "\n" else "";
    StartLiteral();
    Regroup("[Service]" + "\n" + "ExecStart=", "ExecStart=", start, rest);
    ThreeLines("[Service]", "ExecStart=", "ExecStart=" + start, rest);
    OneTextLine("");
    if reload.Some? {
      ReloadLiteral();
      Regroup("ExecReload=", "ExecReload=", reload.value, "");
      assert "ExecReload=\nExecReload=" + reload.value + "\n" + "" == rest;
      TwoLines("ExecReload=", "ExecReload=" + reload.value, "");
    }
  }

  lemma StartLiteral()
    ensures "[Service]\nExecStart=\nExecStart=" == "[Service]" + "\n" + "ExecStart=" + "\n" + "ExecStart="
  {
  }

  lemma ReloadLiteral()
    ensures "ExecReload=\nExecReload=" == "ExecReload=" + "\n" + "ExecReload="
  {
  }

  lemma Regroup(a: string, b: string, c: string, rest: string)
    ensures a + "\n" + b + c + "\n" + rest == a + "\n" + ((b + c) + "\n" + rest)
  {
  }

  lemma TwoLines(a: string, b: string, rest: string)
    requires '\n' !in a && '\n' !in b
    ensures TextLines(a + "\n" + (b + "\n" + rest)) == [a, b] + TextLines(rest)
  {
    hide TextLines;
    TextLinesCut(a, b + "\n" + rest);
    TextLinesCut(b, rest);
  }

  lemma ThreeLines(a: string, b: string, c: string, rest: string)
    requires '\n' !in a && '\n' !in b && '\n' !in c
    ensures TextLines(a + "\n" + b + "\n" + (c + "\n" + rest)) == [a, b, c] + TextLines(rest)
  {
    hide TextLines;
    assert a + "\n" + b + "\n" + (c + "\n" + rest) == a + "\n" + (b + "\n" + (c + "\n" + rest));
    TextLinesCut(a, b + "\n" + (c + "\n" + rest));
    TwoLines(b, c, rest);
  }

  // ------------------------------------------------------------------ the drop-ins

  /** The commands a plan wants behind a compose prefix. */
  predicate Wanted(prefix: seq<string>, p: Plan) {
    && AllPlain(prefix + p.suffix) && prefix != []
    && (HasReload(p) ==> AllPlain(prefix + p.reloadSuffix))
  }

  lemma ServiceRead(r: Reading, prefix: seq<string>, p: Plan)
    requires Clean(r) && Wanted(prefix, p)
    ensures FeedAll(r, TextLines(ServiceText(prefix, p)))
         == r.(section := Some("Service"), starts := [UnitLine(prefix + p.suffix)],
               reloads := if HasReload(p) then [UnitLine(prefix + p.reloadSuffix)] else r.reloads)
  {
    UnitLineSolid(prefix + p.suffix);
    if HasReload(p) {
      UnitLineSolid(prefix + p.reloadSuffix);
    }
    hide UnitLine, Solid, FeedAll, TextLines, AllPlain;
    var start := UnitLine(prefix + p.suffix);
    var reload := if HasReload(p) then Some(UnitLine(prefix + p.reloadSuffix)) else None;
    ServiceLines(start, reload);
    SetCommands(r, start, reload);
  }

  /** Exactly one command is in force, and it splits into the arguments. */
  predicate Runs(commands: seq<string>, argv: seq<string>) { |commands| == 1 && Split(commands[0]) == Some(argv) }

  /** An accepted chain is plain throughout, and its parts make it up. */
  lemma ChainPlain(argv: seq<string>)
    requires PartsOf(argv).Some?
    ensures AllPlain(argv)
    ensures var Parts(prefix, suffix) := PartsOf(argv).value; prefix + suffix == argv && prefix != []
  {
    hide Plain, NamesFile;
    var n := ChainOf(argv);
    EvenPairs(argv, n);
    assert argv[..n] + argv[n..] == argv;
  }

  lemma PlainInside(prefix: seq<string>, suffix: seq<string>, path: string)
    requires AllPlain(prefix + ["-f", path] + suffix)
    ensures Plain(path) && Plain("-f")
  {
    hide Plain;
    var all := prefix + ["-f", path] + suffix;
    assert all[|prefix|] == "-f" && all[|prefix| + 1] == path;
    assert "-f" in all && path in all;
  }

  lemma WantedNew(tools: Tools, req: Request, p: Plan)
    requires Sound(tools, req, p)
    ensures Wanted(p.prefix + ["-f", req.override], p) && Plain(req.override) && AllPlain(p.prefix + p.suffix)
    ensures HasReload(p) ==> AllPlain(p.prefix + p.reloadSuffix)
  {
    hide PartsOf, AllPlain, Plain, GuardHolds, ImageId, ImageTag;
    ChainPlain(p.start);
    ChainPlain(NewPrefix(req, p) + p.suffix);
    PlainInside(p.prefix, p.suffix, req.override);
    if HasReload(p) {
      ChainPlain(p.reload.value);
      PlainBetween(p.prefix, p.reloadSuffix, req.override);
    }
  }

  lemma PlainBetween(prefix: seq<string>, suffix: seq<string>, path: string)
    requires AllPlain(prefix + suffix) && Plain(path) && Plain("-f")
    ensures AllPlain(prefix + ["-f", path] + suffix)
  {
    hide Plain;
    forall a | a in prefix + ["-f", path] + suffix ensures Plain(a) {
      assert a in prefix + suffix || a == "-f" || a == path;
    }
  }

  /**
   * From the drop-in of every sound plan systemd reads exactly the new start command, the new reload command when there
   * was one, and nothing else; without a reload command those of the unit stay.
   */
  lemma NewUnitReads(tools: Tools, req: Request, p: Plan, starts: seq<string>, reloads: seq<string>)
    requires Sound(tools, req, p)
    ensures
      var d := Read(Opening(starts, reloads), NewUnit(req, p));
      && Clean(d) && d.others == []
      && Runs(d.starts, p.prefix + ["-f", req.override] + p.suffix)
      && if HasReload(p) then Runs(d.reloads, p.prefix + ["-f", req.override] + p.reloadSuffix) else d.reloads == reloads
  {
    hide Sound, FeedAll, TextLines, ServiceText, Wanted, UnitLine, Split;
    WantedNew(tools, req, p);
    ServiceRead(Opening(starts, reloads), NewPrefix(req, p), p);
    WantedSplits(NewPrefix(req, p), p);
  }

  lemma WantedSplits(prefix: seq<string>, p: Plan)
    requires Wanted(prefix, p)
    ensures Split(UnitLine(prefix + p.suffix)) == Some(prefix + p.suffix)
    ensures HasReload(p) ==> Split(UnitLine(prefix + p.reloadSuffix)) == Some(prefix + p.reloadSuffix)
  {
    hide UnitLine, Split, AllPlain;
    SplitUnitLine(prefix + p.suffix);
    if HasReload(p) {
      SplitUnitLine(prefix + p.reloadSuffix);
    }
  }

  lemma RollbackPathPlain(req: Request)
    requires Plain(req.override)
    ensures Plain(req.override + ".rollback.json")
  {
    assert forall c | c in ".rollback.json" :: PlainChar(c);
  }

  /**
   * After what was read so far a service section can begin: no malformed header ended the reading, and no line is
   * continued into its header, unless that line is blank or stands in a service section already.
   */
  predicate CanBegin(r: Reading) {
    && !r.broken
    && (r.pending.None? || Strip(r.pending.value) == ""
        || (r.section == Some("Service") && Strip(r.pending.value)[0] != '['))
  }

  /** Behind a continued line the section begins in a service section all the same. */
  lemma BeginsBehind(r: Reading)
    requires CanBegin(r) && r.pending.Some?
    ensures Clean(Feed(r, "[Service]")) && Feed(r, "[Service]").section == Some("Service")
  {
    var w := r.pending.value;
    HeaderSwallowed(r);
    StripBeforeHeader(w);
    var line := "[Service]";
    assert line[0] == '[' && line[8] == ']' && |line| == 9 && line[1..8] == "Service";
    hide Strip, StripLeft, Feed, IndexOf;
    if Strip(w) == "" {
      assert "" + line == line;
    } else {
      assert (StripLeft(w) + line)[0] == StripLeft(w)[0];
    }
  }

  /** Otherwise what follows belongs to another section or is not read. */
  lemma NeverBegins(r: Reading)
    requires !CanBegin(r) && !r.broken
    ensures var after := Feed(r, "[Service]");
      Clean(after) && after.section != Some("Service") && after.starts == r.starts && after.reloads == r.reloads
  {
    var w := r.pending.value;
    HeaderSwallowed(r);
    StripBeforeHeader(w);
    var line := "[Service]";
    assert line[0] == '[' && line[8] == ']' && |line| == 9;
    hide Strip, StripLeft, Feed, IndexOf;
    var s := StripLeft(w) + line;
    assert s[0] == StripLeft(w)[0] && s[|s| - 1] == ']';
    if s[0] == '[' {
      assert s[1..|s| - 1][|StripLeft(w)| - 1] == '[';
      assert '[' !in "Service";
    }
  }

  /** The rest of an unfinished line changes no command outside a service section, or as part of a header. */
  lemma LastLine(r: Reading)
    requires !CanBegin(r) && !r.broken
    ensures var end := ParseLine(r.(pending := None), r.pending.value); end.starts == r.starts && end.reloads == r.reloads
  {
    hide Strip, StripLeft, IndexOf;
  }

  lemma FirstLine(lines: seq<string>, r: Reading, first: string)
    requires lines != [] && lines[0] == first
    ensures FeedAll(r, lines) == FeedAll(Feed(r, first), lines[1..])
  {
  }

  /** All lines a rollout writes behind the header are assignments. */
  lemma SectionLines(prefix: seq<string>, p: Plan)
    requires Wanted(prefix, p)
    ensures var lines := TextLines(ServiceText(prefix, p));
      lines != [] && lines[0] == "[Service]" && forall line | line in lines[1..] :: Inner(line)
  {
    UnitLineSolid(prefix + p.suffix);
    if HasReload(p) {
      UnitLineSolid(prefix + p.reloadSuffix);
    }
    hide UnitLine, Solid, Inner, FeedAll, TextLines, AllPlain;
    var start := UnitLine(prefix + p.suffix);
    var reload := if HasReload(p) then Some(UnitLine(prefix + p.reloadSuffix)) else None;
    ServiceLines(start, reload);
    InnerLines(start, reload);
  }

  lemma InnerLines(start: string, reload: Option<string>)
    requires Solid(start) && (reload.Some? ==> Solid(reload.value))
    ensures var lines := ["[Service]", "ExecStart=", "ExecStart=" + start]
                         + (if reload.Some? then ["ExecReload=", "ExecReload=" + reload.value] else []) + [""];
      lines[0] == "[Service]" && forall line | line in lines[1..] :: Inner(line)
  {
    SetLine("ExecStart=", start);
    if reload.Some? {
      SetLine("ExecReload=", reload.value);
    }
    assert Inner("");
    hide Solid, Inner;
    var tail := if reload.Some? then ["ExecReload=", "ExecReload=" + reload.value] else [];
    var lines := ["[Service]", "ExecStart=", "ExecStart=" + start] + tail + [""];
    assert lines[1..] == ["ExecStart=", "ExecStart=" + start] + tail + [""];
  }

  lemma SetLine(key: string, value: string)
    requires key == "ExecStart=" || key == "ExecReload="
    requires Solid(value)
    ensures Inner(key) && Inner(key + value)
  {
    assert key[0] == 'E' && key[|key| - 1] == '=';
    var line := key + value;
    assert line[0] == 'E' && line[|line| - 1] == if value == "" then '=' else value[|value| - 1];
  }

  /** The section a rollout writes, behind anything: its commands are read, or it changes no command at all. */
  lemma SectionBehind(r: Reading, prefix: seq<string>, p: Plan)
    requires Wanted(prefix, p)
    ensures var d := FeedAll(r, TextLines(ServiceText(prefix, p)));
      if CanBegin(r) then
        && Clean(d) && d.starts == [UnitLine(prefix + p.suffix)]
        && (HasReload(p) ==> d.reloads == [UnitLine(prefix + p.reloadSuffix)])
        && (Clean(r) ==> d.others == r.others && (!HasReload(p) ==> d.reloads == r.reloads))
      else (d.pending.None? || d.broken) && d.starts == r.starts && d.reloads == r.reloads
  {
    var lines := TextLines(ServiceText(prefix, p));
    SectionLines(prefix, p);
    assert Clean(r) ==> CanBegin(r);
    hide Wanted, TextLines, ServiceText, UnitLine, FeedAll, Feed, Solid, CanBegin;
    if Clean(r) {
      ServiceRead(r, prefix, p);
    } else if r.broken {
      BrokenStays(r, lines);
      assert !CanBegin(r) by { BrokenCannot(r); }
    } else if CanBegin(r) {
      BeginsBehind(r);
      var begun := Feed(r, "[Service]");
      FirstLine(lines, r, "[Service]");
      FirstLine(lines, begun, "[Service]");
      HeaderLine(begun);
      ServiceRead(begun, prefix, p);
    } else {
      NeverBegins(r);
      FirstLine(lines, r, "[Service]");
      ElsewhereLines(Feed(r, "[Service]"), lines[1..]);
    }
  }

  lemma BrokenCannot(r: Reading)
    requires r.broken
    ensures !CanBegin(r)
  {
  }

  /**
   * Where a service section can begin behind the earlier drop-in, systemd reads from the rollback drop-in exactly the
   * old commands with the pinned image, and behind a complete one every other assignment is kept. Everywhere else the
   * rollback drop-in changes no command.
   */
  lemma RollbackUnitReads(tools: Tools, req: Request, p: Plan, starts: seq<string>, reloads: seq<string>)
    requires Sound(tools, req, p)
    ensures
      var prior := if p.prior.Some? then p.prior.value else "";
      var last := FeedAll(Opening(starts, reloads), TextLines(prior));
      var before := Read(Opening(starts, reloads), prior);
      var d := Read(Opening(starts, reloads), RollbackUnit(req, p));
      var prefix := p.prefix + ["-f", req.override + ".rollback.json"];
      if CanBegin(last) then
        && Clean(d) && Runs(d.starts, prefix + p.suffix)
        && (HasReload(p) ==> Runs(d.reloads, prefix + p.reloadSuffix))
        && (Clean(last) ==> d.others == before.others && (!HasReload(p) ==> d.reloads == before.reloads))
      else d.starts == before.starts && d.reloads == before.reloads
  {
    hide Sound, FeedAll, TextLines, ServiceText, Wanted, UnitLine, Split, Plain, AllPlain, CanBegin, ParseLine;
    var prior := if p.prior.Some? then p.prior.value else "";
    var last := FeedAll(Opening(starts, reloads), TextLines(prior));
    WantedNew(tools, req, p);
    RollbackPathPlain(req);
    assert Wanted(RollbackPrefix(req, p), p) by { WantedWith(RollbackPath(req), p); }
    TextLinesJoined(prior, ServiceText(RollbackPrefix(req, p), p));
    FeedAllJoined(Opening(starts, reloads), TextLines(prior), TextLines(ServiceText(RollbackPrefix(req, p), p)));
    SectionBehind(last, RollbackPrefix(req, p), p);
    WantedSplits(RollbackPrefix(req, p), p);
    if !CanBegin(last) && !last.broken {
      LastLine(last);
    }
  }

  /** An instance: a drop-in whose last line of another section is continued at the end of the file. */
  lemma ContinuedPrior(starts: seq<string>, reloads: seq<string>)
    ensures !CanBegin(FeedAll(Opening(starts, reloads), TextLines("[Unit]\nDescription=a\\")))
  {
    hide *;
    var r := Opening(starts, reloads);
    assert Clean(r) by { OpeningClean(starts, reloads); }
    ContinuedLines();
    UnitHeader(r);
    var unit := r.(section := Some("Unit"));
    assert Clean(unit) by { SectionClean(r); }
    ContinuedLine(unit);
    FeedTwo(r, "[Unit]", "Description=a\\");
  }

  lemma OpeningClean(starts: seq<string>, reloads: seq<string>)
    ensures Clean(Opening(starts, reloads))
  {
  }

  lemma SectionClean(r: Reading)
    requires Clean(r)
    ensures Clean(r.(section := Some("Unit")))
  {
  }

  lemma ContinuedLines()
    ensures TextLines("[Unit]\nDescription=a\\") == ["[Unit]", "Description=a\\"]
  {
    hide *;
    ContinuedText();
    TwoTextLines("[Unit]", "Description=a\\");
  }

  lemma ContinuedText()
    ensures "[Unit]\nDescription=a\\" == "[Unit]" + "\n" + "Description=a\\"
    ensures '\n' !in "[Unit]" && '\n' !in "Description=a\\"
  {
  }

  lemma TwoTextLines(a: string, b: string)
    requires '\n' !in a && '\n' !in b
    ensures TextLines(a + "\n" + b) == [a, b]
  {
    hide TextLines;
    TextLinesCut(a, b);
    OneTextLine(b);
    assert [a] + [b] == [a, b];
  }

  lemma UnitHeader(r: Reading)
    requires Clean(r)
    ensures Feed(r, "[Unit]") == r.(section := Some("Unit"))
  {
    var line := "[Unit]";
    assert line[0] == '[' && line[5] == ']' && |line| == 6 && line[1..5] == "Unit";
    hide Feed, Strip, StripLeft;
    StripSolid(line);
    WholeLine(r, line);
  }

  lemma ContinuedLine(r: Reading)
    requires Clean(r) && r.section == Some("Unit")
    ensures !CanBegin(Feed(r, "Description=a\\"))
  {
    var line := "Description=a\\";
    assert |line| == 14 && line[0] == 'D' && line[13] == '\\' && line[12] == 'a';
    assert line[..13][12] == 'a';
    NotDangling(line[..13]);
    assert "" + line == line;
    var w := line[..13] + " ";
    assert w[0] == 'D';
    assert StripLeft(line) == line && StripLeft(w) == w;
    StripRightStarts(w);
    hide StripLeft, StripRight;
  }

  lemma WantedWith(path: string, p: Plan)
    requires Plain(path) && AllPlain(p.prefix + p.suffix) && (HasReload(p) ==> AllPlain(p.prefix + p.reloadSuffix))
    ensures Wanted(p.prefix + ["-f", path], p)
  {
    assert Plain("-f");
    PlainBetween(p.prefix, p.suffix, path);
    if HasReload(p) {
      PlainBetween(p.prefix, p.reloadSuffix, path);
    }
  }

  // ------------------------------------------------------------- loading and pinning

  /** The text systemd shows for one command line. */
  ghost predicate ShownAs(shown: string, line: string) {
    exists path, rest | path != "" && ';' !in path && '\n' !in rest :: shown == Display(path, line, rest)
  }

  /** Loading a drop-in shows the single commands that are read from it. */
  ghost predicate LoadsAsRead(load: Option<string> -> Unit, starts: seq<string>, reloads: seq<string>) {
    forall text: string ::
      var d := Read(Opening(starts, reloads), text);
      && (|d.starts| == 1 ==> ShownAs(load(Some(text)).start, d.starts[0]))
      && (|d.reloads| == 1 ==> ShownAs(load(Some(text)).reload, d.reloads[0]))
  }

  /** Where loading shows what is read, the drop-in of a sound plan is effective: the loaded commands are the new chain. */
  lemma NewUnitEffective(
    tools: Tools, req: Request, p: Plan, load: Option<string> -> Unit, starts: seq<string>, reloads: seq<string>)
    requires Sound(tools, req, p) && LoadsAsRead(load, starts, reloads)
    ensures SystemdArgv(load(Some(NewUnit(req, p))).start) == Some(NewPrefix(req, p) + p.suffix)
    ensures HasReload(p) ==> ReloadArgv(load(Some(NewUnit(req, p)))) == Some(ReloadChain(NewPrefix(req, p), p))
  {
    hide Sound, FeedAll, TextLines, ServiceText, Wanted, UnitLine, Split, SystemdArgv, Display, AllPlain;
    var prefix := NewPrefix(req, p);
    WantedNew(tools, req, p);
    ServiceRead(Opening(starts, reloads), prefix, p);
    var unit, d := load(Some(NewUnit(req, p))), Read(Opening(starts, reloads), NewUnit(req, p));
    assert ShownAs(unit.start, UnitLine(prefix + p.suffix));
    WantedPlain(prefix, p);
    ShownArgv(unit.start, prefix + p.suffix);
    if HasReload(p) {
      assert ShownAs(unit.reload, UnitLine(prefix + p.reloadSuffix));
      ShownArgv(unit.reload, prefix + p.reloadSuffix);
    }
  }

  lemma WantedPlain(prefix: seq<string>, p: Plan)
    requires Wanted(prefix, p)
    ensures AllPlain(prefix + p.suffix) && (HasReload(p) ==> AllPlain(prefix + p.reloadSuffix))
  {
  }

  lemma ShownArgv(shown: string, argv: seq<string>)
    requires ShownAs(shown, UnitLine(argv)) && AllPlain(argv)
    ensures SystemdArgv(shown) == Some(argv) && shown != ""
  {
    hide SystemdArgv, UnitLine, AllPlain;
    var path, rest :| path != "" && ';' !in path && '\n' !in rest && shown == Display(path, UnitLine(argv), rest);
    DisplayRoundTrip(path, argv, rest);
  }

  /** Before anything is activated the old image is pinned beside the new overlay, and each path holds its own overlay. */
  lemma StagedOverlays(tools: Tools, req: Request, p: Plan)
    requires ImageTag(req.targetTag)
    ensures
      var log := Staged(tools, req, p);
      && |log| == 2
      && log[0].action == WriteFile(req.override + ".rollback.json", tools.json(Overlay(req.expectedImage, None, None)))
      && log[1].action == WriteFile(req.override,
           tools.json(Overlay(p.target, Some(req.targetTag[26..]),
                              if req.config.Some? then Some(req.config.value.path) else None)))
  {
    assert |TAG_PREFIX| == 26;
  }
}
