/** Small datatypes and string helpers shared by the models. */
module Prelude {

  datatype Option<+T> = None | Some(value: T)

  /** True iff `x` occurs in `s` at position `p`. */
  predicate OccursAt(s: string, x: string, p: int) {
    0 <= p && p + |x| <= |s| && s[p..p + |x|] == x
  }

  /** The position of the first `c` in `s`, or |s| when there is none. */
  function IndexOf(s: string, c: char): (k: nat)
    ensures k <= |s| && c !in s[..k]
    ensures k < |s| ==> s[k] == c
  {
    if s == "" || s[0] == c then 0
    else
      assert forall k: nat | k <= |s| - 1 :: s[..k + 1] == [s[0]] + s[1..][..k];
      1 + IndexOf(s[1..], c)
  }

  /** The first `c` of a text is found right after a part that holds none. */
  lemma {:induction false} IndexOfSplit(a: string, c: char, b: string)
    requires c !in a
    ensures IndexOf(a + [c] + b, c) == |a|
    decreases |a|
  {
    if a != "" {
      IndexOfSplit(a[1..], c, b);
      assert (a + [c] + b)[1..] == a[1..] + [c] + b;
    }
  }

  /** An element counted twice sits at two places. */
  lemma {:induction false} Twice<T>(s: seq<T>, x: T)
    requires multiset(s)[x] >= 2
    ensures exists i, j | 0 <= i < j < |s| :: s[i] == x && s[j] == x
    decreases |s|
  {
    var n := |s| - 1;
    assert s == s[..n] + [s[n]];
    if s[n] == x {
      assert x in multiset(s[..n]);
      var i :| 0 <= i < n && s[..n][i] == x;
      assert s[i] == x && s[n] == x;
    } else {
      Twice(s[..n], x);
      var i, j :| 0 <= i < j < n && s[..n][i] == x && s[..n][j] == x;
      assert s[i] == x && s[j] == x;
    }
  }

  /** An element at two places is counted twice. */
  lemma CountedTwice<T>(s: seq<T>, i: nat, j: nat)
    requires i < j < |s| && s[i] == s[j]
    ensures multiset(s)[s[i]] >= 2
  {
    assert s == s[..j] + [s[j]] + s[j + 1..];
    assert s[..j][i] in multiset(s[..j]);
  }

  ghost predicate Injective<A(!new), B(!new)>(f: A -> B) {
    forall x, y :: f(x) == f(y) ==> x == y
  }

  predicate Distinct<T(==)>(s: seq<T>) { forall i, j | 0 <= i < j < |s| :: s[i] != s[j] }

  function Elements<T>(s: seq<T>): set<T> { set x | x in s }

  /** A sequence has as many elements as places exactly when no element occurs twice. */
  lemma {:induction false} DistinctByCount<T>(s: seq<T>)
    ensures |Elements(s)| <= |s|
    ensures |Elements(s)| == |s| <==> Distinct(s)
    decreases |s|
  {
    if s != [] {
      var n := |s| - 1;
      var front := s[..n];
      DistinctByCount(front);
      assert s == front + [s[n]];
      assert Elements(s) == Elements(front) + {s[n]};
      if s[n] in front {
        assert Elements(s) == Elements(front);
        var i :| 0 <= i < n && front[i] == s[n];
        assert s[i] == s[n];
      } else {
        assert forall i | 0 <= i < n :: s[i] == front[i] && front[i] in front;
      }
    }
  }

  predicate Contains(t: string, x: string) { exists p | 0 <= p <= |t| :: OccursAt(t, x, p) }

  /** `n` lower-case hexadecimal digits. */
  predicate LowerHex(s: string, n: nat) {
    |s| == n && forall i | 0 <= i < n :: '0' <= s[i] <= '9' || 'a' <= s[i] <= 'f'
  }

  function Digit(d: nat): char
    requires d < 10
  {
    "0123456789"[d]
  }

  /** Decimal printing. */
  function Decimal(n: nat): (s: string)
    ensures s != "" && ':' !in s
  {
    if n < 10 then [Digit(n)] else Decimal(n / 10) + [Digit(n % 10)]
  }

  /** Reading in text mode turns every carriage return, with or without a newline after it, into a newline. */
  function Translate(text: string): string {
    if text == "" then ""
    else if text[0] != '\r' then [text[0]] + Translate(text[1..])
    else if |text| > 1 && text[1] == '\n' then Translate(text[1..])
    else "\n" + Translate(text[1..])
  }

  lemma {:induction false} TranslatePlain(s: string)
    requires '\r' !in s
    ensures Translate(s) == s
    decreases |s|
  {
    if s != "" {
      TranslatePlain(s[1..]);
      assert [s[0]] + s[1..] == s;
    }
  }

  lemma {:induction false} TranslatedPlain(text: string)
    ensures '\r' !in Translate(text)
    decreases |text|
  {
    if text != "" {
      TranslatedPlain(text[1..]);
    }
  }

  /** Text mode leaves a text as it is exactly when it has no carriage return. */
  lemma TranslateSame(text: string)
    ensures Translate(text) == text <==> '\r' !in text
  {
    TranslatedPlain(text);
    if '\r' !in text {
      TranslatePlain(text);
    }
  }

  function JoinLines(lines: seq<string>): string
    requires lines != []
  {
    if |lines| == 1 then lines[0] else lines[0] + "\n" + JoinLines(lines[1..])
  }

  /** The newline-separated lines of a text; there is always at least one. */
  function TextLines(text: string): (r: seq<string>)
    ensures r != [] && JoinLines(r) == text && forall l | l in r :: '\n' !in l
    decreases |text|
  {
    var k := IndexOf(text, '\n');
    if k == |text| then
      assert text[..k] == text;
      [text]
    else
      assert text == text[..k] + "\n" + text[k + 1..];
      [text[..k]] + TextLines(text[k + 1..])
  }

  /** The lines of a text that starts with a whole line. */
  lemma TextLinesCut(line: string, rest: string)
    requires '\n' !in line
    ensures TextLines(line + "\n" + rest) == [line] + TextLines(rest)
  {
    hide JoinLines;
    var text := line + "\n" + rest;
    IndexOfSplit(line, '\n', rest);
    assert text == line + ['\n'] + rest;
    assert text[..|line|] == line && text[|line| + 1..] == rest;
  }

  lemma OneTextLine(line: string)
    requires '\n' !in line
    ensures TextLines(line) == [line]
  {
  }

  /** The lines of two texts with a newline between them. */
  lemma {:induction false} TextLinesJoined(a: string, b: string)
    ensures TextLines(a + "\n" + b) == TextLines(a) + TextLines(b)
    decreases |a|
  {
    hide JoinLines, TextLines;
    var k := IndexOf(a, '\n');
    if k == |a| {
      assert a[..k] == a;
      TextLinesCut(a, b);
      OneTextLine(a);
    } else {
      var line, rest := a[..k], a[k + 1..];
      assert a == line + "\n" + rest;
      assert a + "\n" + b == line + "\n" + (rest + "\n" + b);
      TextLinesJoined(rest, b);
      TextLinesCut(line, rest + "\n" + b);
      TextLinesCut(line, rest);
    }
  }
}
