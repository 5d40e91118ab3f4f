/** The service environment file: key=value lines, edited in place, with a backup that a failed run restores. */
module EnvFile {
  import opened Prelude

  // ------------------------------------------------------------------ lines

  /** The characters at which Python's `splitlines` ends a line. */
  predicate IsBreak(c: char) {
    var n := c as int;
    10 <= n <= 13 || 28 <= n <= 30 || n == 133 || n == 8232 || n == 8233
  }

  predicate BreakFree(s: string) { forall c | c in s :: !IsBreak(c) }

  function FirstBreak(s: string): (k: nat)
    ensures k <= |s| && BreakFree(s[..k]) && (k < |s| ==> IsBreak(s[k]))
  {
    if s == "" || IsBreak(s[0]) then 0
    else
      var k := FirstBreak(s[1..]);
      assert s[..k + 1] == [s[0]] + s[1..][..k];
      k + 1
  }

  function SplitLines(text: string): seq<string>
    decreases |text|
  {
    if text == "" then []
    else
      var k := FirstBreak(text);
      if k == |text| then [text] else [text[..k]] + SplitLines(text[k + 1..])
  }

  function Lines(text: string): seq<string> { SplitLines(Translate(text)) }

  /** The lines joined by newlines, with one more at the end. */
  function Print(lines: seq<string>): string {
    if |lines| <= 1 then (if lines == [] then "" else lines[0]) + "\n" else lines[0] + "\n" + Print(lines[1..])
  }

  predicate AllBreakFree(lines: seq<string>) { forall l | l in lines :: BreakFree(l) }

  lemma {:induction false} FirstBreakAt(a: string, b: string)
    requires BreakFree(a)
    ensures FirstBreak(a + "\n" + b) == |a|
    decreases |a|
  {
    if a != "" {
      assert a[0] in a && forall c | c in a[1..] :: c in a;
      FirstBreakAt(a[1..], b);
      assert (a + "\n" + b)[1..] == a[1..] + "\n" + b;
    }
  }

  lemma {:induction false} PrintPlain(lines: seq<string>)
    requires AllBreakFree(lines)
    ensures '\r' !in Print(lines)
    decreases |lines|
  {
    assert IsBreak('\r');
    if lines != [] {
      assert BreakFree(lines[0]);
      if |lines| > 1 {
        assert AllBreakFree(lines[1..]);
        PrintPlain(lines[1..]);
      }
    }
  }

  lemma {:induction false} SplitPrinted(lines: seq<string>)
    requires AllBreakFree(lines) && lines != []
    ensures SplitLines(Print(lines)) == lines
    decreases |lines|
  {
    var a, rest := lines[0], if |lines| == 1 then "" else Print(lines[1..]);
    assert Print(lines) == a + "\n" + rest;
    FirstBreakAt(a, rest);
    assert (a + "\n" + rest)[..|a|] == a && (a + "\n" + rest)[|a| + 1..] == rest;
    assert SplitLines(Print(lines)) == [a] + SplitLines(rest);
    if |lines| > 1 {
      SplitPrinted(lines[1..]);
      assert [a] + lines[1..] == lines;
    } else {
      assert [a] == lines;
    }
  }

  lemma {:induction false} SplitIsBreakFree(text: string)
    ensures AllBreakFree(SplitLines(text))
    decreases |text|
  {
    if text != "" {
      var k := FirstBreak(text);
      if k == |text| {
        assert text[..k] == text;
      } else {
        SplitIsBreakFree(text[k + 1..]);
      }
    }
  }

  /** Printed lines are read back exactly when there are any and none of them holds a line break. */
  lemma ReadBack(lines: seq<string>)
    ensures Lines(Print(lines)) == lines <==> lines != [] && AllBreakFree(lines)
  {
    SplitIsBreakFree(Translate(Print(lines)));
    if lines == [] {
      assert Translate("\n") == "\n" by { TranslatePlain("\n"); }
      assert FirstBreak("\n") == 0 && "\n"[..0] == "" && "\n"[1..] == "";
      assert SplitLines("\n") == [""] + SplitLines("");
    } else if AllBreakFree(lines) {
      PrintPlain(lines);
      TranslatePlain(Print(lines));
      SplitPrinted(lines);
    }
  }

  // ------------------------------------------------------------------- keys

  function KeyOf(line: string): Option<string> {
    if '=' in line then Some(line[..IndexOf(line, '=')]) else None
  }

  function ValueOf(line: string): string
    requires '=' in line
  {
    line[IndexOf(line, '=') + 1..]
  }

  type Setting = (string, string)

  function Line(s: Setting): string { s.0 + "=" + s.1 }

  lemma LineParts(s: Setting)
    requires '=' !in s.0
    ensures '=' in Line(s) && KeyOf(Line(s)) == Some(s.0) && ValueOf(Line(s)) == s.1
  {
    IndexOfSplit(s.0, '=', s.1);
    assert Line(s) == s.0 + ['='] + s.1;
    assert Line(s)[|s.0|] == '=' && Line(s)[..|s.0|] == s.0 && Line(s)[|s.0| + 1..] == s.1;
  }

  /** The last line with a key, or -1. */
  function LastIndex(lines: seq<string>, key: string): (i: int)
    ensures -1 <= i < |lines|
    ensures i >= 0 ==> KeyOf(lines[i]) == Some(key)
    ensures forall j | i < j < |lines| :: KeyOf(lines[j]) != Some(key)
  {
    if lines == [] then -1
    else
      var n := |lines| - 1;
      if KeyOf(lines[n]) == Some(key) then n else LastIndex(lines[..n], key)
  }

  /** Reading the file as a map: the last occurrence of a key wins. */
  function Lookup(lines: seq<string>, key: string): Option<string> {
    var i := LastIndex(lines, key);
    if i < 0 then None else Some(ValueOf(lines[i]))
  }

  /** Sets one key: in place at its last occurrence, or as a new last line. */
  function SetKey(lines: seq<string>, s: Setting): seq<string> {
    var i := LastIndex(lines, s.0);
    if i < 0 then lines + [Line(s)] else lines[i := Line(s)]
  }

  function Update(lines: seq<string>, settings: seq<Setting>): seq<string> {
    if settings == [] then lines
    else SetKey(Update(lines, settings[..|settings| - 1]), settings[|settings| - 1])
  }

  predicate PlainKeys(settings: seq<Setting>) { forall s | s in settings :: '=' !in s.0 && BreakFree(s.0) }

  predicate DistinctKeys(settings: seq<Setting>) { forall i, j | 0 <= i < j < |settings| :: settings[i].0 != settings[j].0 }

  predicate SameKeys(a: seq<Setting>, b: seq<Setting>) { |a| == |b| && forall i | 0 <= i < |a| :: a[i].0 == b[i].0 }

  // ----------------------------------------------------------- setting one key

  lemma LastIndexIs(lines: seq<string>, key: string, i: nat)
    requires i < |lines| && KeyOf(lines[i]) == Some(key)
    requires forall j | i < j < |lines| :: KeyOf(lines[j]) != Some(key)
    ensures LastIndex(lines, key) == i
  {
    var l := LastIndex(lines, key);
    assert l >= i;
  }

  lemma NoLastIndex(lines: seq<string>, key: string)
    requires forall j | 0 <= j < |lines| :: KeyOf(lines[j]) != Some(key)
    ensures LastIndex(lines, key) == -1
  {
  }

  /** Where every key is found after one key was set. */
  lemma SetKeyIndex(lines: seq<string>, s: Setting, key: string)
    requires '=' !in s.0
    ensures key != s.0 ==> LastIndex(SetKey(lines, s), key) == LastIndex(lines, key)
    ensures LastIndex(SetKey(lines, s), s.0) == if LastIndex(lines, s.0) < 0 then |lines| else LastIndex(lines, s.0)
  {
    LineParts(s);
    hide KeyOf, Line, LastIndex;
    var after, at := SetKey(lines, s), LastIndex(lines, s.0);
    LastIndexIs(after, s.0, if at < 0 then |lines| else at);
    if key != s.0 {
      OtherKeyIndex(lines, s, key);
    }
  }

  lemma OtherKeyIndex(lines: seq<string>, s: Setting, key: string)
    requires KeyOf(Line(s)) == Some(s.0) && key != s.0
    ensures LastIndex(SetKey(lines, s), key) == LastIndex(lines, key)
  {
    hide KeyOf, Line, LastIndex;
    var after, i := SetKey(lines, s), LastIndex(lines, key);
    if i < 0 {
      NoLastIndex(after, key);
    } else {
      LastIndexIs(after, key, i);
    }
  }

  lemma SetKeyLookup(lines: seq<string>, s: Setting, key: string)
    requires '=' !in s.0
    ensures Lookup(SetKey(lines, s), key) == if key == s.0 then Some(s.1) else Lookup(lines, key)
  {
    SetKeyIndex(lines, s, key);
    LineParts(s);
  }

  // ------------------------------------------------------- setting many keys

  /** What a list of settings says about a key; the last one wins. */
  function Configured(settings: seq<Setting>, key: string): Option<string> {
    if settings == [] then None
    else
      var n := |settings| - 1;
      if settings[n].0 == key then Some(settings[n].1) else Configured(settings[..n], key)
  }

  /** Read as a map, the updated file is the old one overridden by exactly the configured settings. */
  lemma {:induction false} UpdateOverrides(lines: seq<string>, settings: seq<Setting>, key: string)
    requires PlainKeys(settings)
    ensures Lookup(Update(lines, settings), key) ==
            if Configured(settings, key).Some? then Configured(settings, key) else Lookup(lines, key)
    decreases |settings|
  {
    if settings != [] {
      var n := |settings| - 1;
      UpdateOverrides(lines, settings[..n], key);
      SetKeyLookup(Update(lines, settings[..n]), settings[n], key);
    }
  }

  /** `now` is the line of a setting whose key was last seen at `i`, or nowhere for -1. */
  ghost predicate SetAt(lines: seq<string>, settings: seq<Setting>, i: int, now: string) {
    exists s | s in settings :: LastIndex(lines, s.0) == i && now == Line(s)
  }

  lemma UpdateIndex(lines: seq<string>, settings: seq<Setting>, key: string)
    requires PlainKeys(settings)
    ensures
      var i := LastIndex(Update(lines, settings), key);
      if LastIndex(lines, key) >= 0 then i == LastIndex(lines, key)
      else i >= 0 ==> i >= |lines|
    ensures |Update(lines, settings)| >= |lines|
    decreases |settings|
  {
    hide KeyOf, Line, BreakFree;
    if settings != [] {
      var n := |settings| - 1;
      UpdateIndex(lines, settings[..n], key);
      SetKeyIndex(Update(lines, settings[..n]), settings[n], key);
    }
  }

  /** A key that was neither in the file nor set is not there afterwards. */
  lemma FreshIndex(lines: seq<string>, settings: seq<Setting>, key: string)
    requires PlainKeys(settings) && forall s | s in settings :: s.0 != key
    ensures LastIndex(Update(lines, settings), key) == LastIndex(lines, key)
    decreases |settings|
  {
    if settings != [] {
      var n := |settings| - 1;
      FreshIndex(lines, settings[..n], key);
      SetKeyIndex(Update(lines, settings[..n]), settings[n], key);
    }
  }

  lemma SetAtMore(lines: seq<string>, settings: seq<Setting>, i: int, now: string)
    requires settings != [] && SetAt(lines, settings[..|settings| - 1], i, now)
    ensures SetAt(lines, settings, i, now)
  {
    var s :| s in settings[..|settings| - 1] && LastIndex(lines, s.0) == i && now == Line(s);
    assert s in settings;
  }

  /**
   * Every line keeps its place, and its text too unless it is the last line of a configured key; every added line
   * sets a configured key that the file did not have.
   */
  lemma {:induction false} UpdateKeeps(lines: seq<string>, settings: seq<Setting>, i: nat)
    requires PlainKeys(settings) && DistinctKeys(settings)
    requires i < |Update(lines, settings)|
    ensures |Update(lines, settings)| >= |lines|
    ensures i < |lines| && Update(lines, settings)[i] != lines[i] ==> SetAt(lines, settings, i, Update(lines, settings)[i])
    ensures i >= |lines| ==> SetAt(lines, settings, -1, Update(lines, settings)[i])
    decreases |settings|
  {
    hide KeyOf, Line, BreakFree;
    if settings != [] {
      var n := |settings| - 1;
      var before, s := Update(lines, settings[..n]), settings[n];
      UpdateIndex(lines, settings[..n], s.0);
      FreshIndex(lines, settings[..n], s.0);
      assert s in settings;
      var was := if i < |lines| then i else -1;
      if i < |before| && SetKey(before, s)[i] == before[i] {
        UpdateKeeps(lines, settings[..n], i);
        if SetAt(lines, settings[..n], was, before[i]) {
          SetAtMore(lines, settings, was, before[i]);
        }
      } else {
        assert SetAt(lines, settings, was, Line(s));
      }
    }
  }

  // ---------------------------------------------------------- updating again

  /** `a` and `b` have the same keys at the same places and differ only in the values of the last lines of `keys`. */
  ghost predicate Alike(a: seq<string>, b: seq<string>, keys: set<string>) {
    && |a| == |b|
    && (forall i | 0 <= i < |a| :: KeyOf(a[i]) == KeyOf(b[i]))
    && (forall i | 0 <= i < |a| && a[i] != b[i] ::
          KeyOf(a[i]).Some? && KeyOf(a[i]).value in keys && LastIndex(a, KeyOf(a[i]).value) == i)
  }

  lemma AlikeIndex(a: seq<string>, b: seq<string>, keys: set<string>, key: string)
    requires Alike(a, b, keys)
    ensures LastIndex(a, key) == LastIndex(b, key)
  {
    var i := LastIndex(a, key);
    if i < 0 {
      NoLastIndex(b, key);
    } else {
      LastIndexIs(b, key, i);
    }
  }

  /** Setting a key on both sides makes that key's lines agree when the values do. */
  lemma SetKeyAlike(a: seq<string>, b: seq<string>, keys: set<string>, s: Setting, t: Setting)
    requires Alike(a, b, keys) && s.0 == t.0 && '=' !in s.0
    ensures Alike(SetKey(a, s), SetKey(b, t), if s == t then keys - {s.0} else keys + {s.0})
  {
    AlikeIndex(a, b, keys, s.0);
    LineParts(s);
    LineParts(t);
    var x, y := SetKey(a, s), SetKey(b, t);
    var at := LastIndex(x, s.0);
    SetKeyIndex(a, s, s.0);
    forall i | 0 <= i < |x|
      ensures KeyOf(x[i]) == KeyOf(y[i])
      ensures x[i] != y[i] ==> KeyOf(x[i]).Some?
      ensures x[i] != y[i] && i != at ==> KeyOf(x[i]).value in keys - {s.0} && LastIndex(x, KeyOf(x[i]).value) == i
    {
      if i != at && x[i] != y[i] {
        assert i < |a| && x[i] == a[i] && y[i] == b[i];
        SetKeyIndex(a, s, KeyOf(a[i]).value);
      }
    }
  }

  function KeysOf(settings: seq<Setting>): set<string> { set s | s in settings :: s.0 }

  lemma AlikeSelf(a: seq<string>)
    ensures Alike(a, a, {})
  {
  }

  lemma PlainFront(q: seq<Setting>)
    requires q != [] && PlainKeys(q)
    ensures PlainKeys(q[..|q| - 1]) && '=' !in q[|q| - 1].0
    ensures KeysOf(q) == KeysOf(q[..|q| - 1]) + {q[|q| - 1].0}
  {
    assert q == q[..|q| - 1] + [q[|q| - 1]];
  }

  lemma {:induction false} UpdateAlike(a: seq<string>, p: seq<Setting>, q: seq<Setting>)
    requires SameKeys(p, q) && PlainKeys(p)
    ensures Alike(Update(a, p), Update(a, q), KeysOf(p))
    decreases |p|
  {
    hide Alike, SetKey, PlainKeys;
    if p == [] {
      AlikeSelf(a);
      assert KeysOf(p) == {};
    } else {
      hide KeysOf;
      var n := |p| - 1;
      PlainFront(p);
      UpdateAlike(a, p[..n], q[..n]);
      SetKeyAlike(Update(a, p[..n]), Update(a, q[..n]), KeysOf(p[..n]), p[n], q[n]);
      if p[n] == q[n] {
        AlikeMore(Update(a, p), Update(a, q), KeysOf(p[..n]) - {p[n].0}, KeysOf(p));
      }
    }
  }

  lemma AlikeMore(a: seq<string>, b: seq<string>, keys: set<string>, more: set<string>)
    requires Alike(a, b, keys) && keys <= more
    ensures Alike(a, b, more)
  {
  }

  /** The same settings applied to both sides leave nothing different. */
  lemma {:induction false} UpdateSame(a: seq<string>, b: seq<string>, keys: set<string>, q: seq<Setting>)
    requires Alike(a, b, keys) && PlainKeys(q)
    ensures Alike(Update(a, q), Update(b, q), keys - KeysOf(q))
    decreases |q|
  {
    hide Alike, SetKey, PlainKeys;
    if q == [] {
      assert keys - KeysOf(q) == keys;
    } else {
      hide KeysOf;
      var n := |q| - 1;
      PlainFront(q);
      UpdateSame(a, b, keys, q[..n]);
      SetKeyAlike(Update(a, q[..n]), Update(b, q[..n]), keys - KeysOf(q[..n]), q[n], q[n]);
      assert keys - KeysOf(q[..n]) - {q[n].0} == keys - KeysOf(q);
    }
  }

  /** After one key was set, its last line is the new one, and the last line of any other key is the old one. */
  lemma SetKeyLine(lines: seq<string>, s: Setting, key: string)
    requires '=' !in s.0 && (key == s.0 || LastIndex(lines, key) >= 0)
    ensures
      var after := SetKey(lines, s);
      var i := LastIndex(after, key);
      i >= 0 && after[i] == if key == s.0 then Line(s) else lines[LastIndex(lines, key)]
  {
    SetKeyIndex(lines, s, key);
  }

  lemma {:induction false} SettingsHold(a: seq<string>, q: seq<Setting>, s: Setting)
    requires PlainKeys(q) && DistinctKeys(q) && s in q
    ensures var i := LastIndex(Update(a, q), s.0); i >= 0 && Update(a, q)[i] == Line(s)
    decreases |q|
  {
    hide SetKey, LastIndex, Line, PlainKeys;
    var n := |q| - 1;
    PlainFront(q);
    if s != q[n] {
      SettingsHold(a, q[..n], s);
    }
    SetKeyLine(Update(a, q[..n]), q[n], s.0);
  }

  lemma {:induction false} AlreadySet(a: seq<string>, q: seq<Setting>)
    requires forall s | s in q :: LastIndex(a, s.0) >= 0 && a[LastIndex(a, s.0)] == Line(s)
    ensures Update(a, q) == a
    decreases |q|
  {
    if q != [] {
      var n := |q| - 1;
      AlreadySet(a, q[..n]);
      assert q[n] in q;
    }
  }

  /**
   * Only the last update counts: an update that follows another one of the same keys in the same order leaves the
   * lines it would have left alone. With equal settings this is idempotence; with the loop first disabled and then
   * enabled it is enabling alone.
   */
  lemma LastUpdateWins(a: seq<string>, p: seq<Setting>, q: seq<Setting>)
    requires SameKeys(p, q) && PlainKeys(p) && DistinctKeys(p)
    ensures Update(Update(a, p), q) == Update(a, q)
  {
    forall s | s in q ensures '=' !in s.0 && BreakFree(s.0) {
      var i :| 0 <= i < |q| && q[i] == s;
      assert p[i] in p;
    }
    UpdateAlike(a, p, q);
    UpdateSame(Update(a, p), Update(a, q), KeysOf(p), q);
    assert KeysOf(p) <= KeysOf(q) by {
      forall k | k in KeysOf(p) ensures k in KeysOf(q) {
        var i :| 0 <= i < |p| && p[i].0 == k;
        assert q[i] in q;
      }
    }
    assert KeysOf(p) - KeysOf(q) == {};
    assert Update(Update(a, p), q) == Update(Update(a, q), q);
    forall s | s in q ensures LastIndex(Update(a, q), s.0) >= 0 && Update(a, q)[LastIndex(Update(a, q), s.0)] == Line(s) {
      SettingsHold(a, q, s);
    }
    AlreadySet(Update(a, q), q);
  }

  // ----------------------------------------------------------------- as text

  function UpdateText(text: string, settings: seq<Setting>): string { Print(Update(Lines(text), settings)) }

  predicate PlainValues(settings: seq<Setting>) { forall s | s in settings :: BreakFree(s.1) }

  lemma LineBreaks(s: Setting)
    requires BreakFree(s.0)
    ensures BreakFree(Line(s)) <==> BreakFree(s.1)
  {
    assert forall c | c in s.1 :: c in Line(s);
    assert !IsBreak('=');
  }

  lemma {:induction false} UpdateBreakFree(lines: seq<string>, settings: seq<Setting>)
    requires AllBreakFree(lines) && PlainKeys(settings) && PlainValues(settings)
    ensures AllBreakFree(Update(lines, settings))
    decreases |settings|
  {
    if settings != [] {
      var n := |settings| - 1;
      UpdateBreakFree(lines, settings[..n]);
      assert settings[n] in settings;
      LineBreaks(settings[n]);
    }
  }

  /**
   * The written file reads back as the updated lines exactly when it has a line and no configured value holds a line
   * break. A value with a break in it would be read back as more lines.
   */
  lemma WrittenLines(text: string, settings: seq<Setting>)
    requires PlainKeys(settings) && DistinctKeys(settings)
    ensures Lines(UpdateText(text, settings)) == Update(Lines(text), settings)
       <==> Update(Lines(text), settings) != [] && PlainValues(settings)
  {
    var after := Update(Lines(text), settings);
    SplitIsBreakFree(Translate(text));
    ReadBack(after);
    if PlainValues(settings) {
      UpdateBreakFree(Lines(text), settings);
    } else {
      var s :| s in settings && !BreakFree(s.1);
      SettingsHold(Lines(text), settings, s);
      LineBreaks(s);
      assert Line(s) in after && !BreakFree(Line(s));
    }
  }

  /** On the file itself: read back, it is the old file overridden by exactly the configured settings. */
  lemma UpdateOverridesInText(text: string, settings: seq<Setting>, key: string)
    requires PlainKeys(settings) && DistinctKeys(settings) && PlainValues(settings)
    ensures Lookup(Lines(UpdateText(text, settings)), key) ==
            if Configured(settings, key).Some? then Configured(settings, key) else Lookup(Lines(text), key)
  {
    UpdateOverrides(Lines(text), settings, key);
    WrittenLines(text, settings);
    if Update(Lines(text), settings) == [] {
      ReadBack([""]);
      assert Lines(UpdateText(text, settings)) == [""] by { assert Print([""]) == "\n" == Print([]); }
      assert KeyOf("") == None;
      NoLastIndex([""], key);
    }
  }

  /** A value with a line break in it is not read back as it was written. */
  lemma BrokenValue()
    ensures var q := [("A", "1\nB=2")]; Lines(UpdateText("", q)) != Update(Lines(""), q)
  {
    var q := [("A", "1\nB=2")];
    assert q[0].1[1] == '\n' && '\n' in q[0].1 && IsBreak('\n');
    assert q[0] in q && !BreakFree(q[0].1);
    WrittenLines("", q);
  }

  /** On the file itself: the second of two updates of the same keys is the only one that shows. */
  lemma LastUpdateWinsInText(text: string, p: seq<Setting>, q: seq<Setting>)
    requires SameKeys(p, q) && PlainKeys(p) && DistinctKeys(p) && PlainValues(p)
    ensures UpdateText(UpdateText(text, p), q) == UpdateText(text, q)
  {
    var once := Update(Lines(text), p);
    if once == [] {
      assert p == [] by {
        if p != [] {
          assert p[0] in p;
          SettingsHold(Lines(text), p, p[0]);
        }
      }
      ReadBack([""]);
      assert Print([""]) == "\n" == Print([]);
    } else {
      WrittenLines(text, p);
      LastUpdateWins(Lines(text), p, q);
    }
  }

  // ---------------------------------------------------- the configured fields

  datatype Raw = Missing | Flag(on: bool) | Text(text: string)

  /** ASCII upper case: the fields are identifiers made of lower-case letters, digits and underscores. */
  function Upper(s: string): string {
    if s == "" then ""
    else [if 'a' <= s[0] <= 'z' then (s[0] as int - 32) as char else s[0]] + Upper(s[1..])
  }

  predicate FieldChar(c: char) { 'a' <= c <= 'z' || '0' <= c <= '9' || c == '_' }

  predicate FieldName(s: string) { forall i | 0 <= i < |s| :: FieldChar(s[i]) }

  function KeyFor(field: string): string { "DATASET_LOOP_" + Upper(field) }

  function Shown(raw: Raw): string {
    match raw
    case Missing => ""
    case Flag(on) => if on then "true" else "false"
    case Text(text) => text
  }

  predicate Skipped(fields: set<string>, field: string, raw: Raw) { field !in fields || raw == Missing || raw == Text("") }

  /** The settings one update writes: the known fields that have a value, in the order of the table. */
  function Settings(fields: set<string>, values: seq<(string, Raw)>): seq<Setting> {
    if values == [] then []
    else
      var n := |values| - 1;
      var (field, raw) := values[n];
      Settings(fields, values[..n]) + if Skipped(fields, field, raw) then [] else [(KeyFor(field), Shown(raw))]
  }

  predicate Table(values: seq<(string, Raw)>) {
    && (forall v | v in values :: FieldName(v.0))
    && (forall i, j | 0 <= i < j < |values| :: values[i].0 != values[j].0)
  }

  lemma {:induction false} UpperInjective(a: string, b: string)
    requires FieldName(a) && FieldName(b) && Upper(a) == Upper(b)
    ensures a == b
    decreases |a|
  {
    if a != "" && b != "" {
      assert Upper(a)[0] == Upper(b)[0] && Upper(a)[1..] == Upper(a[1..]) && Upper(b)[1..] == Upper(b[1..]);
      UpperInjective(a[1..], b[1..]);
      assert a == [a[0]] + a[1..] && b == [b[0]] + b[1..];
    }
  }

  lemma KeyForInjective(a: string, b: string)
    requires FieldName(a) && FieldName(b) && KeyFor(a) == KeyFor(b)
    ensures a == b
  {
    assert KeyFor(a)[13..] == Upper(a) && KeyFor(b)[13..] == Upper(b);
    UpperInjective(a, b);
  }

  predicate PlainChar(c: char) { c != '=' && !IsBreak(c) }

  lemma {:induction false} UpperPlain(s: string)
    requires FieldName(s)
    ensures forall c | c in Upper(s) :: PlainChar(c)
    decreases |s|
  {
    if s != "" {
      UpperPlain(s[1..]);
    }
  }

  lemma KeyForPlain(field: string)
    requires FieldName(field)
    ensures '=' !in KeyFor(field) && BreakFree(KeyFor(field))
  {
    UpperPlain(field);
    assert forall c | c in "DATASET_LOOP_" :: PlainChar(c);
    assert forall c | c in KeyFor(field) :: PlainChar(c);
  }

  /** Every setting is the key of one field of the table, so the keys are plain and distinct. */
  lemma {:induction false} SettingsFromTable(fields: set<string>, values: seq<(string, Raw)>)
    requires Table(values)
    ensures var q := Settings(fields, values);
      PlainKeys(q) && DistinctKeys(q) && forall s | s in q :: exists v | v in values :: s == (KeyFor(v.0), Shown(v.1))
    decreases |values|
  {
    hide KeyFor, Shown, Skipped, FieldName;
    if values != [] {
      var n := |values| - 1;
      var front := values[..n];
      assert forall v | v in front :: v in values;
      SettingsFromTable(fields, front);
      KeyForPlain(values[n].0);
      forall s | s in Settings(fields, front) ensures s.0 != KeyFor(values[n].0) {
        var v :| v in front && s == (KeyFor(v.0), Shown(v.1));
        if s.0 == KeyFor(values[n].0) {
          KeyForInjective(v.0, values[n].0);
          assert false;
        }
      }
    }
  }

  /** What the update takes from the GitHub application, the native pack and the state directory. */
  datatype Inputs = Inputs(
    appId: Raw, clientId: Raw, keyFile: Raw,
    version: Raw, binaryPath: Raw, binarySha: Raw, archivePath: Raw, archiveSha: Raw,
    packPath: Raw, packSha: Raw,
    repositories: Raw)

  const ENABLED := "native_dataset_loop_enabled"

  function Values(x: Inputs, enabled: bool): seq<(string, Raw)> {
    [
      ("github_app_id", x.appId),
      ("github_app_client_id", x.clientId),
      ("github_app_private_key_file", x.keyFile),
      ("opencode_version", x.version),
      ("opencode_sha256", x.binarySha),
      ("opencode_binary_path", x.binaryPath),
      ("opencode_binary_sha256", x.binarySha),
      ("opencode_archive_path", x.archivePath),
      ("opencode_archive_sha256", x.archiveSha),
      ("native_pack_archive_path", x.packPath),
      ("native_pack_path", x.packPath),
      ("native_pack_sha256", x.packSha),
      ("dataset_repository_root", x.repositories),
      (ENABLED, Flag(enabled))
    ]
  }

  /** The place of a field in the table, told by its length and, where two are equally long, its first letter. */
  function Place(field: string): int {
    if field == "" then -1
    else match |field|
      case 13 => 0
      case 15 => 4
      case 16 => if field[0] == 'o' then 3 else 10
      case 18 => 11
      case 20 => if field[0] == 'g' then 1 else 5
      case 21 => 7
      case 22 => 6
      case 23 => if field[0] == 'o' then 8 else 12
      case 24 => 9
      case 27 => if field[0] == 'g' then 2 else 13
      case _ => -1
  }

  lemma FirstNames()
    ensures FieldName("github_app_id") && FieldName("github_app_client_id") && FieldName("github_app_private_key_file")
  {
  }

  lemma VersionNames()
    ensures FieldName("opencode_version") && FieldName("opencode_sha256")
  {
  }

  lemma MiddleNames()
    ensures FieldName("opencode_binary_path") && FieldName("opencode_binary_sha256")
  {
  }

  lemma ArchiveNames()
    ensures FieldName("opencode_archive_path") && FieldName("opencode_archive_sha256")
  {
  }

  lemma LastNames()
    ensures FieldName("native_pack_archive_path") && FieldName("native_pack_path") && FieldName("native_pack_sha256")
  {
  }

  lemma OtherNames()
    ensures FieldName("dataset_repository_root") && FieldName(ENABLED)
  {
  }

  lemma NamesPlaced(x: Inputs, enabled: bool, i: nat)
    requires i < |Values(x, enabled)|
    ensures Place(Values(x, enabled)[i].0) == i
  {
  }

  lemma ValuesTable(x: Inputs, enabled: bool)
    ensures Table(Values(x, enabled))
  {
    var v := Values(x, enabled);
    FirstNames();
    VersionNames();
    MiddleNames();
    ArchiveNames();
    LastNames();
    OtherNames();
    hide FieldName;
    assert forall e | e in v :: FieldName(e.0);
    forall i, j | 0 <= i < j < |v| ensures v[i].0 != v[j].0 {
      NamesPlaced(x, enabled, i);
      NamesPlaced(x, enabled, j);
    }
  }

  /** Disabled and enabled tables write the same keys in the same order. */
  lemma {:induction false} SameTable(fields: set<string>, a: seq<(string, Raw)>, b: seq<(string, Raw)>)
    requires |a| == |b|
    requires forall i | 0 <= i < |a| :: a[i].0 == b[i].0 && (Skipped(fields, a[i].0, a[i].1) <==> Skipped(fields, b[i].0, b[i].1))
    ensures SameKeys(Settings(fields, a), Settings(fields, b))
    decreases |a|
  {
    hide KeyFor, Shown, Skipped;
    if a != [] {
      SameTable(fields, a[..|a| - 1], b[..|b| - 1]);
    }
  }

  function Written(fields: set<string>, x: Inputs, enabled: bool): seq<Setting> { Settings(fields, Values(x, enabled)) }

  lemma WrittenKeys(fields: set<string>, x: Inputs)
    ensures SameKeys(Written(fields, x, false), Written(fields, x, true))
    ensures forall e :: PlainKeys(Written(fields, x, e)) && DistinctKeys(Written(fields, x, e))
  {
    forall e ensures PlainKeys(Written(fields, x, e)) && DistinctKeys(Written(fields, x, e)) {
      ValuesTable(x, e);
      SettingsFromTable(fields, Values(x, e));
    }
    SameTable(fields, Values(x, false), Values(x, true));
  }

  // -------------------------------------------------------- what an update writes

  lemma {:induction false} NotConfigured(settings: seq<Setting>, key: string)
    requires forall s | s in settings :: s.0 != key
    ensures Configured(settings, key) == None
    decreases |settings|
  {
    if settings != [] {
      NotConfigured(settings[..|settings| - 1], key);
    }
  }

  /** A field of the table is configured with its value exactly when it is not skipped. */
  lemma {:induction false} SettingsLookup(fields: set<string>, values: seq<(string, Raw)>, i: nat)
    requires Table(values) && i < |values|
    ensures Configured(Settings(fields, values), KeyFor(values[i].0)) ==
            if Skipped(fields, values[i].0, values[i].1) then None else Some(Shown(values[i].1))
    decreases |values|
  {
    hide KeyFor, Shown, Skipped, FieldName, Settings, Configured, Table;
    var n := |values| - 1;
    var front, key := values[..n], KeyFor(values[i].0);
    var before := Settings(fields, front);
    SettingsLast(fields, values);
    TableFront(values);
    ConfiguredLast(before, KeyFor(values[n].0), Shown(values[n].1), key);
    if i == n {
      SettingsFromTable(fields, front);
      forall s | s in before ensures s.0 != key {
        var v :| v in front && s == (KeyFor(v.0), Shown(v.1));
        OtherKey(values, v, key);
      }
      NotConfigured(before, key);
    } else {
      SettingsLookup(fields, front, i);
      assert values[i] in front;
      OtherKey(values, values[i], KeyFor(values[n].0));
    }
  }

  lemma SettingsLast(fields: set<string>, values: seq<(string, Raw)>)
    requires values != []
    ensures var n := |values| - 1;
            var before := Settings(fields, values[..n]);
            Settings(fields, values) ==
            if Skipped(fields, values[n].0, values[n].1) then before else before + [(KeyFor(values[n].0), Shown(values[n].1))]
  {
    hide KeyFor, Shown, Skipped;
    var before := Settings(fields, values[..|values| - 1]);
    assert before + [] == before;
  }

  lemma ConfiguredLast(before: seq<Setting>, last: string, value: string, key: string)
    ensures Configured(before + [(last, value)], key) == if last == key then Some(value) else Configured(before, key)
  {
    assert (before + [(last, value)])[..|before|] == before;
  }

  lemma TableFront(values: seq<(string, Raw)>)
    requires Table(values) && values != []
    ensures Table(values[..|values| - 1])
  {
    hide FieldName;
    assert forall v | v in values[..|values| - 1] :: v in values;
  }

  /** A field before the last one has another key. */
  lemma OtherKey(values: seq<(string, Raw)>, v: (string, Raw), key: string)
    requires Table(values) && values != [] && v in values[..|values| - 1] && key == KeyFor(values[|values| - 1].0)
    ensures KeyFor(v.0) != key
  {
    hide KeyFor, FieldName;
    var n := |values| - 1;
    var i :| 0 <= i < n && values[..n][i] == v;
    assert values[i] == v && values[i] in values && values[n] in values;
    if KeyFor(v.0) == key {
      KeyForInjective(v.0, values[n].0);
    }
  }

  /** A key that no field of the table stands for is not configured. */
  lemma OtherKeys(fields: set<string>, values: seq<(string, Raw)>, key: string)
    requires Table(values) && forall i | 0 <= i < |values| :: KeyFor(values[i].0) != key
    ensures Configured(Settings(fields, values), key) == None
  {
    hide KeyFor, Shown, FieldName;
    SettingsFromTable(fields, values);
    NotConfigured(Settings(fields, values), key);
  }

  lemma {:induction false} UpperIs(s: string, u: string)
    requires |s| == |u|
    requires forall i | 0 <= i < |s| :: if 'a' <= s[i] <= 'z' then u[i] as int == s[i] as int - 32 else u[i] == s[i]
    ensures Upper(s) == u
    decreases |s|
  {
    if s != "" {
      UpperIs(s[1..], u[1..]);
      assert u == [u[0]] + u[1..];
    }
  }

  /** A configured field: its name, the key it is written under, and the input it stands for. */
  datatype Slot = Slot(field: string, key: string, input: Raw)

  function Slots(x: Inputs, enabled: bool): seq<Slot> {
    [
      Slot("github_app_id", "DATASET_LOOP_GITHUB_APP_ID", x.appId),
      Slot("github_app_client_id", "DATASET_LOOP_GITHUB_APP_CLIENT_ID", x.clientId),
      Slot("github_app_private_key_file", "DATASET_LOOP_GITHUB_APP_PRIVATE_KEY_FILE", x.keyFile),
      Slot("opencode_version", "DATASET_LOOP_OPENCODE_VERSION", x.version),
      Slot("opencode_sha256", "DATASET_LOOP_OPENCODE_SHA256", x.binarySha),
      Slot("opencode_binary_path", "DATASET_LOOP_OPENCODE_BINARY_PATH", x.binaryPath),
      Slot("opencode_binary_sha256", "DATASET_LOOP_OPENCODE_BINARY_SHA256", x.binarySha),
      Slot("opencode_archive_path", "DATASET_LOOP_OPENCODE_ARCHIVE_PATH", x.archivePath),
      Slot("opencode_archive_sha256", "DATASET_LOOP_OPENCODE_ARCHIVE_SHA256", x.archiveSha),
      Slot("native_pack_archive_path", "DATASET_LOOP_NATIVE_PACK_ARCHIVE_PATH", x.packPath),
      Slot("native_pack_path", "DATASET_LOOP_NATIVE_PACK_PATH", x.packPath),
      Slot("native_pack_sha256", "DATASET_LOOP_NATIVE_PACK_SHA256", x.packSha),
      Slot("dataset_repository_root", "DATASET_LOOP_DATASET_REPOSITORY_ROOT", x.repositories),
      Slot("native_dataset_loop_enabled", "DATASET_LOOP_NATIVE_DATASET_LOOP_ENABLED", Flag(enabled))
    ]
  }

  lemma AppIdKey()
    ensures KeyFor("github_app_id") == "DATASET_LOOP_GITHUB_APP_ID"
  {
    hide Upper;
    UpperIs("github_app_id", "GITHUB_APP_ID");
  }

  lemma ClientIdKey()
    ensures KeyFor("github_app_client_id") == "DATASET_LOOP_GITHUB_APP_CLIENT_ID"
  {
    hide Upper;
    UpperIs("github_app_client_id", "GITHUB_APP_CLIENT_ID");
  }

  lemma KeyFileKey()
    ensures KeyFor("github_app_private_key_file") == "DATASET_LOOP_GITHUB_APP_PRIVATE_KEY_FILE"
  {
    hide Upper;
    KeyFileUpper();
  }

  lemma KeyFileUpper()
    ensures Upper("github_app_private_key_file") == "GITHUB_APP_PRIVATE_KEY_FILE"
  {
    hide Upper;
    UpperIs("github_app_private_key_file", "GITHUB_APP_PRIVATE_KEY_FILE");
  }

  lemma VersionKey()
    ensures KeyFor("opencode_version") == "DATASET_LOOP_OPENCODE_VERSION"
  {
    hide Upper;
    UpperIs("opencode_version", "OPENCODE_VERSION");
  }

  lemma ShaKey()
    ensures KeyFor("opencode_sha256") == "DATASET_LOOP_OPENCODE_SHA256"
  {
    hide Upper;
    UpperIs("opencode_sha256", "OPENCODE_SHA256");
  }

  lemma BinaryPathKey()
    ensures KeyFor("opencode_binary_path") == "DATASET_LOOP_OPENCODE_BINARY_PATH"
  {
    hide Upper;
    UpperIs("opencode_binary_path", "OPENCODE_BINARY_PATH");
  }

  lemma BinaryShaKey()
    ensures KeyFor("opencode_binary_sha256") == "DATASET_LOOP_OPENCODE_BINARY_SHA256"
  {
    hide Upper;
    UpperIs("opencode_binary_sha256", "OPENCODE_BINARY_SHA256");
  }

  lemma ArchivePathKey()
    ensures KeyFor("opencode_archive_path") == "DATASET_LOOP_OPENCODE_ARCHIVE_PATH"
  {
    hide Upper;
    UpperIs("opencode_archive_path", "OPENCODE_ARCHIVE_PATH");
  }

  lemma ArchiveShaKey()
    ensures KeyFor("opencode_archive_sha256") == "DATASET_LOOP_OPENCODE_ARCHIVE_SHA256"
  {
    hide Upper;
    UpperIs("opencode_archive_sha256", "OPENCODE_ARCHIVE_SHA256");
  }

  lemma PackArchiveKey()
    ensures KeyFor("native_pack_archive_path") == "DATASET_LOOP_NATIVE_PACK_ARCHIVE_PATH"
  {
    hide Upper;
    UpperIs("native_pack_archive_path", "NATIVE_PACK_ARCHIVE_PATH");
  }

  lemma PackPathKey()
    ensures KeyFor("native_pack_path") == "DATASET_LOOP_NATIVE_PACK_PATH"
  {
    hide Upper;
    UpperIs("native_pack_path", "NATIVE_PACK_PATH");
  }

  lemma PackShaKey()
    ensures KeyFor("native_pack_sha256") == "DATASET_LOOP_NATIVE_PACK_SHA256"
  {
    hide Upper;
    UpperIs("native_pack_sha256", "NATIVE_PACK_SHA256");
  }

  lemma RootKey()
    ensures KeyFor("dataset_repository_root") == "DATASET_LOOP_DATASET_REPOSITORY_ROOT"
  {
    hide Upper;
    UpperIs("dataset_repository_root", "DATASET_REPOSITORY_ROOT");
  }

  lemma EnabledKey()
    ensures KeyFor("native_dataset_loop_enabled") == "DATASET_LOOP_NATIVE_DATASET_LOOP_ENABLED"
  {
    hide Upper;
    EnabledUpper();
  }

  lemma EnabledUpper()
    ensures Upper("native_dataset_loop_enabled") == "NATIVE_DATASET_LOOP_ENABLED"
  {
    hide Upper;
    UpperIs("native_dataset_loop_enabled", "NATIVE_DATASET_LOOP_ENABLED");
  }

  lemma SlotKey(x: Inputs, enabled: bool, i: nat)
    requires i < 14
    ensures KeyFor(Slots(x, enabled)[i].field) == Slots(x, enabled)[i].key
  {
    AppIdKey();
    ClientIdKey();
    KeyFileKey();
    VersionKey();
    ShaKey();
    BinaryPathKey();
    BinaryShaKey();
    ArchivePathKey();
    ArchiveShaKey();
    PackArchiveKey();
    PackPathKey();
    PackShaKey();
    RootKey();
    EnabledKey();
    hide KeyFor;
  }

  lemma SlotValue(x: Inputs, enabled: bool, i: nat)
    requires i < 14
    ensures Values(x, enabled)[i] == (Slots(x, enabled)[i].field, Slots(x, enabled)[i].input)
  {
  }

  /** What the file says of a field that has a value and of one that has none or is not known. */
  function SlotText(fields: set<string>, s: Slot, before: Option<string>): Option<string> {
    if s.field !in fields then before
    else
      match s.input
      case Missing => before
      case Flag(on) => Some(if on then "true" else "false")
      case Text(text) => if text == "" then before else Some(text)
  }

  /** Read back, the new file has every known field with a value at its own key, and every other key as before. */
  ghost predicate Configures(before: string, after: string, fields: set<string>, x: Inputs, enabled: bool) {
    && (forall i | 0 <= i < |Slots(x, enabled)| ::
          var s := Slots(x, enabled)[i];
          Lookup(Lines(after), s.key) == SlotText(fields, s, Lookup(Lines(before), s.key)))
    && (forall key | forall i | 0 <= i < |Slots(x, enabled)| :: Slots(x, enabled)[i].key != key ::
          Lookup(Lines(after), key) == Lookup(Lines(before), key))
  }

  lemma UpdateConfigures(text: string, fields: set<string>, x: Inputs, enabled: bool)
    requires PlainValues(Written(fields, x, enabled))
    ensures Configures(text, UpdateText(text, Written(fields, x, enabled)), fields, x, enabled)
  {
    hide Values, Slots, KeyFor, Table, UpdateText, Lines, Lookup, Settings, PlainKeys, DistinctKeys, PlainValues, SlotText, Configured;
    var q, after := Written(fields, x, enabled), UpdateText(text, Written(fields, x, enabled));
    FourteenValues(x, enabled);
    ValuesTable(x, enabled);
    WrittenKeys(fields, x);
    forall i | 0 <= i < 14
      ensures var s := Slots(x, enabled)[i]; Lookup(Lines(after), s.key) == SlotText(fields, s, Lookup(Lines(text), s.key))
    {
      SlotWritten(text, fields, x, enabled, i);
    }
    forall key | forall i | 0 <= i < 14 :: Slots(x, enabled)[i].key != key
      ensures Lookup(Lines(after), key) == Lookup(Lines(text), key)
    {
      forall i | 0 <= i < |Values(x, enabled)| ensures KeyFor(Values(x, enabled)[i].0) != key {
        SlotKey(x, enabled, i);
        SlotValue(x, enabled, i);
        assert Slots(x, enabled)[i].key != key;
      }
      OtherKeys(fields, Values(x, enabled), key);
      UpdateOverridesInText(text, q, key);
    }
  }

  lemma FourteenValues(x: Inputs, enabled: bool)
    ensures |Values(x, enabled)| == 14 && |Slots(x, enabled)| == 14
  {
  }

  lemma SlotWritten(text: string, fields: set<string>, x: Inputs, enabled: bool, i: nat)
    requires PlainValues(Written(fields, x, enabled)) && i < 14
    ensures
      var s := Slots(x, enabled)[i];
      Lookup(Lines(UpdateText(text, Written(fields, x, enabled))), s.key) == SlotText(fields, s, Lookup(Lines(text), s.key))
  {
    hide Values, Slots, KeyFor, Table, UpdateText, Lines, Lookup, Settings, PlainKeys, DistinctKeys, PlainValues, Configured;
    FourteenValues(x, enabled);
    ValuesTable(x, enabled);
    WrittenKeys(fields, x);
    SlotKey(x, enabled, i);
    SlotValue(x, enabled, i);
    var s := Slots(x, enabled)[i];
    SettingsLookup(fields, Values(x, enabled), i);
    UpdateOverridesInText(text, Written(fields, x, enabled), s.key);
  }

  /** A configured file says of the loop exactly what was asked. */
  lemma FlagReads(before: string, after: string, fields: set<string>, x: Inputs, enabled: bool)
    requires Configures(before, after, fields, x, enabled) && ENABLED in fields
    ensures Lookup(Lines(after), "DATASET_LOOP_NATIVE_DATASET_LOOP_ENABLED") == Some(if enabled then "true" else "false")
  {
    FlagKey(x, enabled);
    FourteenValues(x, enabled);
    SlotLiteral(x, enabled);
    hide Slots, Lookup, Lines;
    var s := Slots(x, enabled)[13];
    assert Lookup(Lines(after), s.key) == SlotText(fields, s, Lookup(Lines(before), s.key));
  }

  lemma SlotLiteral(x: Inputs, enabled: bool)
    ensures |Slots(x, enabled)| == 14 && Slots(x, enabled)[13].key == "DATASET_LOOP_NATIVE_DATASET_LOOP_ENABLED"
  {
  }

  lemma {:induction false} ValueKept(fields: set<string>, values: seq<(string, Raw)>, i: nat)
    requires i < |values| && !Skipped(fields, values[i].0, values[i].1)
    ensures (KeyFor(values[i].0), Shown(values[i].1)) in Settings(fields, values)
    decreases |values|
  {
    hide KeyFor, Shown, Skipped;
    var n := |values| - 1;
    if i < n {
      ValueKept(fields, values[..n], i);
    }
  }

  lemma OnlyFlagDiffers(x: Inputs, a: bool, b: bool)
    ensures |Values(x, a)| == |Values(x, b)| == 14
    ensures forall i | 0 <= i < 13 :: Values(x, a)[i] == Values(x, b)[i]
    ensures BreakFree(Shown(Values(x, b)[13].1))
  {
    assert Values(x, b)[13].1 == Flag(b);
    assert BreakFree("true") && BreakFree("false");
  }

  /** Settings written while disabling are free of line breaks exactly when those written while enabling are. */
  lemma SamePlain(fields: set<string>, x: Inputs, a: bool, b: bool)
    requires PlainValues(Written(fields, x, a))
    ensures PlainValues(Written(fields, x, b))
  {
    hide Values, Shown, KeyFor, BreakFree, Settings;
    var v, w := Values(x, a), Values(x, b);
    OnlyFlagDiffers(x, a, b);
    forall s | s in Written(fields, x, b) ensures BreakFree(s.1) {
      var i := FromSlot(fields, w, s);
      if i < 13 {
        ValueKept(fields, v, i);
        assert (KeyFor(v[i].0), Shown(v[i].1)) in Written(fields, x, a);
      }
    }
  }

  lemma {:induction false} FromSlot(fields: set<string>, values: seq<(string, Raw)>, s: Setting) returns (i: nat)
    requires s in Settings(fields, values)
    ensures i < |values| && !Skipped(fields, values[i].0, values[i].1) && s == (KeyFor(values[i].0), Shown(values[i].1))
    decreases |values|
  {
    hide KeyFor, Shown, Skipped;
    var n := |values| - 1;
    if s in Settings(fields, values[..n]) {
      i := FromSlot(fields, values[..n], s);
    } else {
      i := n;
    }
  }

  /** The flag is written under the key that the handler turns off. */
  lemma FlagKey(x: Inputs, enabled: bool)
    ensures FLAG == Slots(x, enabled)[13].key + "=" && Slots(x, enabled)[13].field == ENABLED
    ensures Slots(x, enabled)[13].input == Flag(enabled)
  {
  }

  // ------------------------------------------------------------- in place

  /** The index of lines by key that the update keeps. */
  ghost predicate Indexes(mapping: map<string, nat>, lines: seq<string>) {
    forall k :: if k in mapping then LastIndex(lines, k) == mapping[k] else LastIndex(lines, k) == -1
  }

  method IndexLines(lines: seq<string>) returns (mapping: map<string, nat>)
    ensures Indexes(mapping, lines)
  {
    mapping := map[];
    var index := 0;
    while index < |lines|
      invariant index <= |lines| && Indexes(mapping, lines[..index])
    {
      assert lines[..index + 1][..index] == lines[..index];
      var line := lines[index];
      if '=' in line {
        mapping := mapping[line[..IndexOf(line, '=')] := index];
      }
      index := index + 1;
    }
    assert lines[..index] == lines;
  }

  lemma IndexesSet(mapping: map<string, nat>, lines: seq<string>, s: Setting)
    requires Indexes(mapping, lines) && '=' !in s.0
    ensures Indexes(if s.0 in mapping then mapping else mapping[s.0 := |lines|], SetKey(lines, s))
  {
    forall k {
      SetKeyIndex(lines, s, k);
    }
  }

  ghost function Chosen(fields: set<string>, values: seq<(string, Raw)>): set<string> {
    set v | v in values && !Skipped(fields, v.0, v.1) :: v.0
  }

  lemma TableStep(fields: set<string>, values: seq<(string, Raw)>, n: nat, lines: seq<string>)
    requires n < |values|
    ensures
      var (field, raw) := values[n];
      var s := (KeyFor(field), Shown(raw));
      if Skipped(fields, field, raw) then
        && Update(lines, Settings(fields, values[..n + 1])) == Update(lines, Settings(fields, values[..n]))
        && Chosen(fields, values[..n + 1]) == Chosen(fields, values[..n])
      else
        && Update(lines, Settings(fields, values[..n + 1])) == SetKey(Update(lines, Settings(fields, values[..n])), s)
        && Chosen(fields, values[..n + 1]) == Chosen(fields, values[..n]) + {field}
  {
    hide SetKey, KeyFor, Shown, Skipped;
    assert values[..n + 1][..n] == values[..n];
    assert values[..n + 1] == values[..n] + [values[n]];
    var before, s := Settings(fields, values[..n]), (KeyFor(values[n].0), Shown(values[n].1));
    assert (before + [s])[..|before|] == before;
    assert before + [] == before;
  }

  /** The loop over the table, with its index kept up to date instead of searched, does what setting key by key does. */
  method ApplyTable(lines: seq<string>, fields: set<string>, values: seq<(string, Raw)>)
    returns (existing: seq<string>, configured: seq<string>)
    requires Table(values)
    ensures existing == Update(lines, Settings(fields, values))
    ensures forall f :: f in configured <==> f in Chosen(fields, values)
  {
    hide Settings, Update, Chosen, KeyFor, Shown, Skipped, Line;
    var mapping: map<string, nat> := IndexLines(lines);
    existing, configured := lines, [];
    var n := 0;
    assert Update(lines, Settings(fields, values[..0])) == lines && Chosen(fields, values[..0]) == {} by { EmptyTable(fields, lines); }
    while n < |values|
      invariant n <= |values|
      invariant existing == Update(lines, Settings(fields, values[..n]))
      invariant Indexes(mapping, existing)
      invariant forall f :: f in configured <==> f in Chosen(fields, values[..n])
    {
      var (field, raw) := values[n];
      TableStep(fields, values, n, lines);
      if !Skipped(fields, field, raw) {
        var s := (KeyFor(field), Shown(raw));
        assert '=' !in s.0 by { assert values[n] in values; KeyForPlain(field); }
        IndexesSet(mapping, existing, s);
        if s.0 in mapping {
          existing := existing[mapping[s.0] := Line(s)];
        } else {
          mapping := mapping[s.0 := |existing|];
          existing := existing + [Line(s)];
        }
        configured := configured + [field];
      }
      n := n + 1;
    }
    assert values[..n] == values;
  }

  lemma EmptyTable(fields: set<string>, lines: seq<string>)
    ensures Update(lines, Settings(fields, [])) == lines && Chosen(fields, []) == {}
  {
  }

  // ------------------------------------------------------ without a backup

  const FLAG := "DATASET_LOOP_NATIVE_DATASET_LOOP_ENABLED="

  function DisabledLine(line: string): string { if FLAG <= line then FLAG + "false" else line }

  /** The file with every newline-separated line that sets the flag now setting it to false. */
  function Disabled(text: string): string
    decreases |text|
  {
    var k := IndexOf(text, '\n');
    if k == |text| then DisabledLine(text) else DisabledLine(text[..k]) + "\n" + Disabled(text[k + 1..])
  }

  function EachDisabled(lines: seq<string>): seq<string> {
    seq(|lines|, i requires 0 <= i < |lines| => DisabledLine(lines[i]))
  }

  lemma {:induction false} NoNewline(text: string)
    requires '\n' !in text
    ensures IndexOf(text, '\n') == |text|
  {
  }

  /** Whatever its lines are, the flag is turned off on each of them and nothing else is touched. */
  lemma {:induction false} DisabledByLine(lines: seq<string>)
    requires lines != [] && forall l | l in lines :: '\n' !in l
    ensures Disabled(JoinLines(lines)) == JoinLines(EachDisabled(lines))
    decreases |lines|
  {
    hide DisabledLine;
    var a := lines[0];
    if |lines| == 1 {
      NoNewline(a);
    } else {
      var rest := JoinLines(lines[1..]);
      IndexOfSplit(a, '\n', rest);
      assert a + ['\n'] + rest == a + "\n" + rest == JoinLines(lines);
      assert (a + "\n" + rest)[..|a|] == a && (a + "\n" + rest)[|a| + 1..] == rest;
      DisabledByLine(lines[1..]);
      assert EachDisabled(lines)[1..] == EachDisabled(lines[1..]);
    }
  }

  predicate LineOff(line: string) { FLAG <= line ==> line == FLAG + "false" }

  /** No line sets the flag to anything but false. */
  predicate FlagOff(text: string) { forall l | l in TextLines(text) :: LineOff(l) }

  lemma FlagOffLine(line: string)
    requires '\n' !in line
    ensures '\n' !in DisabledLine(line)
    ensures DisabledLine(line) == line <==> LineOff(line)
  {
    hide IndexOf;
    assert '\n' !in FLAG + "false";
  }

  lemma FirstLine(line: string, rest: string)
    requires '\n' !in line
    ensures TextLines(line + "\n" + rest) == [line] + TextLines(rest)
    ensures Disabled(line + "\n" + rest) == DisabledLine(line) + "\n" + Disabled(rest)
  {
    hide DisabledLine, JoinLines;
    var text := line + "\n" + rest;
    IndexOfSplit(line, '\n', rest);
    assert text == line + ['\n'] + rest;
    assert text[..|line|] == line && text[|line| + 1..] == rest;
  }

  lemma LastLine(line: string)
    requires '\n' !in line
    ensures TextLines(line) == [line] && Disabled(line) == DisabledLine(line)
  {
    NoNewline(line);
  }

  lemma {:induction false} DisabledSame(text: string)
    ensures Disabled(text) == text <==> FlagOff(text)
    decreases |text|
  {
    hide DisabledLine, LineOff, TextLines, Disabled, IndexOf;
    var k := IndexOf(text, '\n');
    var line := text[..k];
    FlagOffLine(line);
    if k == |text| {
      assert line == text;
      LastLine(line);
    } else {
      var rest := text[k + 1..];
      DisabledSame(rest);
      assert text == line + "\n" + rest;
      FirstLine(line, rest);
      SameHalves(DisabledLine(line), Disabled(rest), line, rest);
    }
  }

  /** Two texts cut at their first newline are equal exactly when both halves are. */
  lemma SameHalves(a: string, b: string, c: string, d: string)
    requires '\n' !in a && '\n' !in c
    ensures a + "\n" + b == c + "\n" + d <==> a == c && b == d
  {
    var s, t := a + "\n" + b, c + "\n" + d;
    if s == t {
      assert s[|a|] == '\n' && t[|c|] == '\n';
      assert forall i | 0 <= i < |a| :: s[i] == a[i];
      assert forall i | 0 <= i < |c| :: t[i] == c[i];
      assert |a| == |c|;
      assert a == s[..|a|] && c == t[..|c|] && b == s[|a| + 1..] && d == t[|c| + 1..];
    }
  }

  lemma DisabledLinePlain(line: string)
    requires '\r' !in line
    ensures '\r' !in DisabledLine(line)
  {
    assert '\r' !in FLAG + "false";
  }

  lemma {:induction false} DisabledPlain(text: string)
    requires '\r' !in text
    ensures '\r' !in Disabled(text)
    decreases |text|
  {
    hide DisabledLine;
    var k := IndexOf(text, '\n');
    DisabledLinePlain(text[..k]);
    if k == |text| {
      assert text[..k] == text;
    } else {
      DisabledPlain(text[k + 1..]);
    }
  }

  /** Turning the flag off leaves a file as it is exactly when it has no carriage return and no line sets the flag otherwise. */
  lemma DisabledUnchanged(text: string)
    ensures Disabled(Translate(text)) == text <==> '\r' !in text && FlagOff(text)
  {
    hide Disabled, Translate, FlagOff;
    TranslatedPlain(text);
    DisabledPlain(Translate(text));
    if '\r' !in text {
      TranslatePlain(text);
      DisabledSame(text);
    }
  }

  // ------------------------------------------------------------------- runs

  /** The two files in the state directory. */
  datatype Files = Files(env: Option<string>, backup: Option<string>)

  /** How far the copy to the backup got in one run: none was made, it was cut short, or it was made. */
  datatype Copy = NoCopy | CutShort | Copied

  /** A run is completed, blocked with the file put back, or ends by an error in the handler itself. */
  datatype End = Completed | Blocked | HandlerRaised

  /** One run of the canary: how it ended, how its copy went and what it was asked to configure. */
  datatype Run = Run(end: End, copy: Copy, fields: set<string>, inputs: Inputs)

  /** The backup after a run: an existing one is kept; a new one is what the copy made of the file. */
  ghost predicate Kept(before: Files, backup: Option<string>, copy: Copy) {
    if before.backup.Some? then backup == before.backup
    else
      match copy
      case NoCopy => backup == None
      case CutShort => before.env.Some? && backup.Some? && backup.value <= before.env.value
      case Copied => before.env.Some? && backup == before.env
  }

  /** What the handler leaves: the backup if there is one, otherwise the file with the flag off. */
  function Restored(env: Option<string>, backup: Option<string>): Files {
    if backup.Some? then Files(backup, backup)
    else if env.Some? then Files(Some(Disabled(Translate(env.value))), None)
    else Files(None, None)
  }

  ghost predicate Succeeds(before: Files, after: Files, fields: set<string>, x: Inputs) {
    && before.env.Some?
    && after.env == Some(UpdateText(UpdateText(before.env.value, Written(fields, x, false)), Written(fields, x, true)))
    && Kept(before, after.backup, Copied)
  }

  ghost predicate Blocks(before: Files, after: Files, copy: Copy) {
    Kept(before, after.backup, copy) && after == Restored(before.env, after.backup)
  }

  ghost predicate Step(before: Files, after: Files, r: Run) {
    match r.end
    case Completed => Succeeds(before, after, r.fields, r.inputs)
    case Blocked => Blocks(before, after, r.copy)
    case HandlerRaised => Kept(before, after.backup, r.copy)
  }

  /** Known before the run: whether a blocked run whose copy is not cut short is sure to bring the file back. */
  predicate Recoverable(f: Files) {
    if f.backup.Some? then f.backup == f.env
    else f.env.Some? ==> '\r' !in f.env.value && FlagOff(f.env.value)
  }

  class StateDirectory {
    var env: Option<string>
    var backup: Option<string>

    ghost function Now(): Files
      reads this
    {
      Files(env, backup)
    }

    /** A copy or a write in place that may raise at any point and then leaves nothing, a part or the whole. */
    method CopyOver(text: string, target: Option<string>) returns (ok: bool, result: Option<string>)
      ensures ok ==> result == Some(text)
      ensures !ok ==> result == target || (result.Some? && result.value <= text)
    {
      var started, part: int := *, *;
      ok := *;
      if ok {
        return true, Some(text);
      }
      result := if started == 0 then target else Some(text[..if 0 <= part <= |text| then part else 0]);
    }

    /** Copies the file unless there is a backup already. */
    method SaveOnce() returns (ok: bool, copy: Copy)
      modifies this`backup
      ensures Kept(old(Now()), backup, copy)
      ensures ok ==> Kept(old(Now()), backup, Copied) && (old(backup).Some? || env.Some?)
    {
      if backup.Some? {
        return true, NoCopy;
      }
      if env.None? {
        return false, NoCopy;
      }
      ok, backup := CopyOver(env.value, None);
      copy := if backup == env then Copied else if backup.None? then NoCopy else CutShort;
    }

    /** Saves the file once, then rewrites it and restarts the service; `ok` is false when a step raised. */
    method UpdateEnv(fields: set<string>, x: Inputs, enabled: bool) returns (ok: bool, copy: Copy, configured: seq<string>)
      modifies this
      ensures ok ==> old(env).Some? && env == Some(UpdateText(old(env).value, Written(fields, x, enabled)))
      ensures ok ==> forall f :: f in configured <==> f in Chosen(fields, Values(x, enabled))
      ensures ok && PlainValues(Written(fields, x, enabled)) ==> Configures(old(env).value, env.value, fields, x, enabled)
      ensures Kept(old(Now()), backup, copy)
      ensures ok ==> Kept(old(Now()), backup, Copied)
      // the file is not rewritten before there is a whole backup of it, or an older one
      ensures env != old(env) ==> Kept(old(Now()), backup, Copied) && backup.Some?
    {
      hide Values, Update, Settings, Chosen, Print, Lines, Table, LastIndex, KeyOf, PlainValues, Configures;
      configured := [];
      ok, copy := SaveOnce();
      if !ok {
        return;
      }
      if env.None? {
        ok := false;
        return;
      }
      ValuesTable(x, enabled);
      var existing;
      existing, configured := ApplyTable(Lines(env.value), fields, Values(x, enabled));
      if PlainValues(Written(fields, x, enabled)) {
        UpdateConfigures(env.value, fields, x, enabled);
      }
      ok, env := CopyOver(Print(existing), env);
      if ok {
        ok := *;
      }
    }

    /** The handler: puts the backup back, or turns the flag off where there is none. */
    method Restore() returns (ok: bool)
      modifies this`env
      ensures ok ==> Now() == Restored(old(env), backup)
    {
      hide Disabled, Translate;
      ok := true;
      if backup.Some? {
        ok, env := CopyOver(backup.value, env);
      } else if env.Some? {
        ok, env := CopyOver(Disabled(Translate(env.value)), env);
      }
    }

    /** A run: checks that may raise, the update that disables, the payload, the update that enables, the rest. */
    method NativeCanary(fields: set<string>, x: Inputs) returns (r: Run, ghost middle: string)
      modifies this
      ensures r.fields == fields && r.inputs == x
      ensures Step(old(Now()), Now(), r)
      ensures r.end == Completed && PlainValues(Written(fields, x, false)) ==>
                env == Some(UpdateText(old(env).value, Written(fields, x, true)))
      // between the two updates the file is configured with the loop off, and at the end with the loop on
      ensures r.end == Completed && PlainValues(Written(fields, x, false)) ==>
                Configures(old(env).value, middle, fields, x, false) && Configures(old(env).value, env.value, fields, x, true)
      ensures r.end == Completed && PlainValues(Written(fields, x, false)) && ENABLED in fields ==>
                && Lookup(Lines(middle), "DATASET_LOOP_NATIVE_DATASET_LOOP_ENABLED") == Some("false")
                && Lookup(Lines(env.value), "DATASET_LOOP_NATIVE_DATASET_LOOP_ENABLED") == Some("true")
      ensures r.end == Blocked && r.copy != CutShort && Recoverable(old(Now())) ==> env == old(env)
    {
      hide UpdateText, Written, PlainValues, Disabled, Translate, Values, FlagOff, Configures, Lookup, Lines;
      BringsBack(Now());
      var ok, copy;
      ok, copy, middle := Attempt(fields, x);
      if ok {
        Settled(old(env).value, fields, x);
        if PlainValues(Written(fields, x, false)) {
          SamePlain(fields, x, false, true);
          UpdateConfigures(old(env).value, fields, x, true);
          if ENABLED in fields {
            FlagReads(old(env).value, middle, fields, x, false);
            FlagReads(old(env).value, env.value, fields, x, true);
          }
        }
        r := Run(Completed, copy, fields, x);
        return;
      }
      ok := Restore();
      r := Run(if ok then Blocked else HandlerRaised, copy, fields, x);
    }

    /** The guarded part of a run. */
    method Attempt(fields: set<string>, x: Inputs) returns (ok: bool, copy: Copy, ghost middle: string)
      modifies this
      ensures Kept(old(Now()), backup, copy)
      ensures ok ==> Succeeds(old(Now()), Now(), fields, x)
      ensures env != old(env) ==> backup.Some?
      ensures ok && PlainValues(Written(fields, x, false)) ==> Configures(old(env).value, middle, fields, x, false)
    {
      hide UpdateText, Written, Values, PlainValues, Configures;
      var configured;
      middle := "";
      copy := NoCopy;
      ok := *;  // everything before the first update
      if !ok {
        return;
      }
      ok, copy, configured := UpdateEnv(fields, x, false);
      if !ok {
        return;
      }
      middle := env.value;
      ok := *;  // the payload
      if !ok {
        return;
      }
      var again;
      ok, again, configured := UpdateEnv(fields, x, true);
      if ok {
        ok := *;  // the run, its branch, its artifacts and the journal
      }
    }
  }

  /** Disabling and then enabling leaves what enabling alone leaves. */
  lemma Settled(text: string, fields: set<string>, x: Inputs)
    ensures PlainValues(Written(fields, x, false)) ==>
              UpdateText(UpdateText(text, Written(fields, x, false)), Written(fields, x, true))
              == UpdateText(text, Written(fields, x, true))
  {
    var p, q := Written(fields, x, false), Written(fields, x, true);
    WrittenKeys(fields, x);
    hide Written, UpdateText;
    if PlainValues(p) {
      LastUpdateWinsInText(text, p, q);
    }
  }

  // --------------------------------------------------- when the file comes back

  /** A file that is sure to come back does. */
  lemma BringsBack(before: Files)
    ensures Recoverable(before) ==> forall after, copy | copy != CutShort && Blocks(before, after, copy) :: after.env == before.env
  {
    hide Disabled, Translate, FlagOff;
    if before.env.Some? {
      DisabledUnchanged(before.env.value);
    }
  }

  /**
   * Wherever a run is blocked, short of a copy that is cut short, the file comes back exactly when the backup equals
   * it, or there is no backup and turning the flag off changes nothing.
   */
  lemma ComesBack(before: Files)
    ensures Recoverable(before) <==>
            forall after, copy | copy != CutShort && Blocks(before, after, copy) :: after.env == before.env
  {
    hide Disabled, Translate, FlagOff;
    BringsBack(before);
    if before.env.Some? {
      DisabledUnchanged(before.env.value);
    }
    if before.backup.Some? {
      assert Blocks(before, Files(before.backup, before.backup), NoCopy);
    } else {
      assert Blocks(before, Restored(before.env, None), NoCopy);
    }
  }

  /** With a copy that may be cut short, only a file that equals its backup, is empty or is missing is sure to come back. */
  lemma ComesBackFromAnyCopy(before: Files)
    ensures (if before.backup.Some? then before.backup == before.env else before.env.None? || before.env.value == "") <==>
            forall after, copy | Blocks(before, after, copy) :: after.env == before.env
  {
    hide FlagOff;
    if before.backup.Some? {
      assert Blocks(before, Files(before.backup, before.backup), NoCopy);
    } else if before.env.Some? {
      assert "" <= before.env.value;
      assert Blocks(before, Files(Some(""), Some("")), CutShort);
      if before.env.value == "" {
        assert Disabled(Translate("")) == "";
      }
    }
  }

  /** With a backup left by an earlier run, a blocked run does not bring back the file it started from. */
  lemma StaleBackup(r: Run)
    requires r.end == Blocked
    ensures
      var before := Files(Some("A=2\n"), Some("A=1\n"));
      forall after | Step(before, after, r) :: after.env != before.env
  {
    assert "A=2\n"[2] != "A=1\n"[2];
  }

  /** Without a backup, a run that is blocked before its copy turns an enabled flag off. */
  lemma FlagTurnedOff(r: Run)
    requires r.end == Blocked && r.copy == NoCopy
    ensures
      var before := Files(Some(FLAG + "true"), None);
      forall after | Step(before, after, r) :: after.env == Some(FLAG + "false")
  {
    var text := FLAG + "true";
    FlagText();
    hide IndexOf, Translate;
    TranslatePlain(text);
    NoNewline(text);
  }

  lemma FlagText()
    ensures var text := FLAG + "true"; '\r' !in text && '\n' !in text && FLAG <= text
  {
    assert '\r' !in FLAG && '\n' !in FLAG;
  }

  // --------------------------------------------------------- any number of runs

  ghost predicate History(states: seq<Files>, runs: seq<Run>) {
    |states| == |runs| + 1 && forall i | 0 <= i < |runs| :: Step(states[i], states[i + 1], runs[i])
  }

  /** The backup never changes once it exists, and every blocked run from then on brings that content back. */
  lemma {:induction false} BackupIsForever(states: seq<Files>, runs: seq<Run>, i: nat, j: nat)
    requires History(states, runs) && i <= j < |states| && states[i].backup.Some?
    ensures states[j].backup == states[i].backup
    ensures j < |runs| && runs[j].end == Blocked ==> states[j + 1].env == states[i].backup
    decreases j
  {
    hide UpdateText, Written, Disabled, Translate;
    if j < |runs| {
      assert Step(states[j], states[j + 1], runs[j]);
    }
    if i < j {
      BackupIsForever(states, runs, i, j - 1);
      StepKeepsBackup(states[j - 1], states[j], runs[j - 1]);
    }
  }

  lemma StepKeepsBackup(before: Files, after: Files, r: Run)
    requires Step(before, after, r)
    ensures before.backup.Some? ==> after.backup == before.backup
    ensures before.backup.None? && after.backup.Some? && (r.end == Completed || r.copy != CutShort) ==> after.backup == before.env
    ensures before.backup.None? && after.backup.Some? ==> before.env.Some? && after.backup.value <= before.env.value
  {
  }

  /**
   * The backup is the file as it stood before the run that made it, however many updates followed, unless the copy of
   * that very run was cut short: then it is a beginning of that file.
   */
  lemma {:induction false} BackupPredatesUpdates(states: seq<Files>, runs: seq<Run>, j: nat) returns (i: nat)
    requires History(states, runs) && j < |states|
    requires states[0].backup.None? && states[j].backup.Some?
    ensures i < j && states[i].env.Some? && states[j].backup.value <= states[i].env.value
    ensures runs[i].end == Completed || runs[i].copy != CutShort ==> states[j].backup == states[i].env
    ensures forall k | 0 <= k <= i :: states[k].backup.None?
    decreases j
  {
    assert Step(states[j - 1], states[j], runs[j - 1]);
    StepKeepsBackup(states[j - 1], states[j], runs[j - 1]);
    if states[j - 1].backup.Some? {
      i := BackupPredatesUpdates(states, runs, j - 1);
    } else {
      i := j - 1;
      forall k | 0 <= k <= i ensures states[k].backup.None? {
        if states[k].backup.Some? {
          BackupIsForever(states, runs, k, i);
        }
      }
    }
  }
}
