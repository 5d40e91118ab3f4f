/** Sequential marker substitution in the cloud-init template. */
module CloudInit {
  import opened Prelude
  import opened Base64Coding

  // ----------------------------------------------------- string primitives

  /** Occurrences of `m` in `t` from `i` on, counted left to right without overlap. */
  function CountFrom(t: string, m: string, i: nat): nat
    requires m != ""
    decreases |t| - i
  {
    if i + |m| > |t| then 0
    else if OccursAt(t, m, i) then 1 + CountFrom(t, m, i + |m|)
    else CountFrom(t, m, i + 1)
  }

  /** The rest of `t` from `i` on with every counted occurrence replaced. */
  function ReplaceFrom(t: string, m: string, v: string, i: nat): string
    requires m != "" && i <= |t|
    decreases |t| - i
  {
    if i + |m| > |t| then t[i..]
    else if OccursAt(t, m, i) then v + ReplaceFrom(t, m, v, i + |m|)
    else [t[i]] + ReplaceFrom(t, m, v, i + 1)
  }

  // ------------------------------------------------------- markers and values

  /** Begins and ends with an underscore and has no nine characters in a row without one. */
  ghost predicate MarkerShaped(m: string) {
    && |m| >= 2 && m[0] == '_' && m[|m| - 1] == '_'
    && forall i | 0 <= i <= |m| - 9 :: UnderscoreSoon(m, i)
  }

  ghost predicate UnderscoreSoon(m: string, i: nat)
    requires i + 9 <= |m|
  {
    exists k | i <= k < i + 9 :: m[k] == '_'
  }

  predicate ValueShaped(v: string) { '_' !in v && |v| > 8 }

  ghost predicate HeldOnce(t: string, m: string) {
    exists p: nat :: OnlyAt(t, m, p)
  }

  ghost predicate OnlyAt(t: string, m: string, p: nat) { forall q :: OccursAt(t, m, q) <==> q == p }

  predicate DisjointAt(p: int, m: string, q: int, n: string) { p + |m| <= q || q + |n| <= p }

  ghost predicate Apart(t: string, m: string, n: string) {
    forall p, q | OccursAt(t, m, p) && OccursAt(t, n, q) :: DisjointAt(p, m, q, n)
  }

  type Pair = (string, string)

  ghost predicate Separated(t: string, pairs: seq<Pair>) {
    && (forall k | 0 <= k < |pairs| :: MarkerShaped(pairs[k].0) && HeldOnce(t, pairs[k].0))
    && (forall k, l | 0 <= k < l < |pairs| :: Apart(t, pairs[k].0, pairs[l].0))
  }

  ghost predicate ShapedValues(pairs: seq<Pair>) { forall k | 0 <= k < |pairs| :: ValueShaped(pairs[k].1) }

  // --------------------------------------------------------- the two semantics

  /** Marker by marker, refusing a marker that is not counted exactly once. */
  function Sequential(t: string, pairs: seq<Pair>): Option<string>
    decreases |pairs|
  {
    if pairs == [] then Some(t)
    else if pairs[0].0 == "" || CountFrom(t, pairs[0].0, 0) != 1 then None
    else Sequential(ReplaceFrom(t, pairs[0].0, pairs[0].1, 0), pairs[1..])
  }

  function MatchAt(t: string, pairs: seq<Pair>, i: nat): Option<Pair>
    decreases |pairs|
  {
    if pairs == [] then None
    else if pairs[0].0 != "" && OccursAt(t, pairs[0].0, i) then Some(pairs[0])
    else MatchAt(t, pairs[1..], i)
  }

  lemma {:induction false} MatchMeans(t: string, pairs: seq<Pair>, i: nat)
    ensures MatchAt(t, pairs, i).Some? ==>
      exists k | 0 <= k < |pairs| :: pairs[k] == MatchAt(t, pairs, i).value && pairs[k].0 != "" && OccursAt(t, pairs[k].0, i)
    ensures MatchAt(t, pairs, i).None? ==> forall k | 0 <= k < |pairs| :: pairs[k].0 == "" || !OccursAt(t, pairs[k].0, i)
    decreases |pairs|
  {
    if pairs != [] && !(pairs[0].0 != "" && OccursAt(t, pairs[0].0, i)) {
      MatchMeans(t, pairs[1..], i);
      assert forall k | 1 <= k < |pairs| :: pairs[k] == pairs[1..][k - 1];
    }
  }

  /** One left-to-right pass over the original text that substitutes all markers at once. */
  function Simultaneous(t: string, pairs: seq<Pair>, i: nat): string
    requires i <= |t|
    decreases |t| - i
  {
    if i == |t| then ""
    else
      MatchMeans(t, pairs, i);
      match MatchAt(t, pairs, i)
      case Some(pair) => pair.1 + Simultaneous(t, pairs, i + |pair.0|)
      case None => [t[i]] + Simultaneous(t, pairs, i + 1)
  }

  // --------------------------------------------------- one replacement in detail

  function Spliced(t: string, p: nat, m: string, v: string): string
    requires p + |m| <= |t|
  {
    t[..p] + v + t[p + |m|..]
  }

  lemma {:induction false} CountOnce(t: string, m: string, p: nat, i: nat)
    requires m != "" && OnlyAt(t, m, p)
    ensures CountFrom(t, m, i) == if i <= p then 1 else 0
    decreases |t| - i
  {
    assert OccursAt(t, m, p);
    if i + |m| <= |t| {
      assert OccursAt(t, m, i) <==> i == p;
      if i == p {
        CountOnce(t, m, p, i + |m|);
      } else {
        CountOnce(t, m, p, i + 1);
      }
    }
  }

  lemma {:induction false} ReplaceOnce(t: string, m: string, v: string, p: nat, i: nat)
    requires m != "" && i <= p && OnlyAt(t, m, p) && p + |m| <= |t|
    ensures ReplaceFrom(t, m, v, i) == t[i..p] + v + t[p + |m|..]
    decreases |t| - i
  {
    hide OnlyAt, OccursAt, ReplaceFrom;
    OnlyThere(t, m, p, i);
    ReplaceStep(t, m, v, i);
    var tail := t[p + |m|..];
    if i == p {
      ReplaceNone(t, m, v, p, i + |m|);
      assert t[i..p] + v + tail == v + tail;
    } else {
      ReplaceOnce(t, m, v, p, i + 1);
      OneLonger(t, i, p, v, tail);
    }
  }

  lemma OneLonger(t: string, i: nat, p: nat, v: string, tail: string)
    requires i < p <= |t|
    ensures t[i..p] + v + tail == [t[i]] + (t[i + 1..p] + v + tail)
  {
    assert t[i..p] == [t[i]] + t[i + 1..p];
  }

  lemma ReplaceStep(t: string, m: string, v: string, i: nat)
    requires m != "" && i + |m| <= |t|
    ensures ReplaceFrom(t, m, v, i) ==
            if OccursAt(t, m, i) then v + ReplaceFrom(t, m, v, i + |m|) else [t[i]] + ReplaceFrom(t, m, v, i + 1)
  {
    hide OccursAt;
  }

  lemma OnlyThere(t: string, m: string, p: nat, i: nat)
    requires OnlyAt(t, m, p)
    ensures OccursAt(t, m, i) <==> i == p
  {
  }

  lemma {:induction false} ReplaceNone(t: string, m: string, v: string, p: nat, i: nat)
    requires m != "" && p < i <= |t| && OnlyAt(t, m, p)
    ensures ReplaceFrom(t, m, v, i) == t[i..]
    decreases |t| - i
  {
    if i + |m| <= |t| {
      assert !OccursAt(t, m, i);
      ReplaceNone(t, m, v, p, i + 1);
      assert t[i..] == [t[i]] + t[i + 1..];
    }
  }

  lemma UnderscoreInside(s: string, n: string, q: int, p: int)
    requires MarkerShaped(n) && OccursAt(s, n, q) && q <= p && p + 9 <= q + |n|
    ensures exists k | p <= k < p + 9 :: s[k] == '_'
  {
    assert UnderscoreSoon(n, p - q);
    var k :| p - q <= k < p - q + 9 && n[k] == '_';
    assert s[q..q + |n|][k] == s[q + k];
  }

  /** A marker cannot touch an inserted value: its ends are underscores and its inside is too short. */
  lemma MarkerMissesValue(s: string, p: nat, v: string, n: string, q: int)
    requires p + |v| <= |s| && s[p..p + |v|] == v && ValueShaped(v)
    requires MarkerShaped(n) && OccursAt(s, n, q)
    ensures q + |n| <= p || p + |v| <= q
  {
    forall k | p <= k < p + |v| ensures s[k] != '_' {
      assert s[k] == s[p..p + |v|][k - p] == v[k - p];
    }
    assert s[q] == s[q..q + |n|][0] == '_';
    assert s[q + |n| - 1] == s[q..q + |n|][|n| - 1] == '_';
    if q <= p && p + 9 <= q + |n| {
      UnderscoreInside(s, n, q, p);
    }
  }

  /** After a splice the occurrences of a marker are the old ones outside the replaced stretch, shifted. */
  lemma SplicedOccurrences(t: string, p: nat, m: string, v: string, n: string, q: int)
    requires p + |m| <= |t| && ValueShaped(v) && MarkerShaped(n)
    ensures OccursAt(Spliced(t, p, m, v), n, q) <==>
      (q + |n| <= p && OccursAt(t, n, q)) || (p + |v| <= q && OccursAt(t, n, q - |v| + |m|))
  {
    var s := Spliced(t, p, m, v);
    assert s[p..p + |v|] == v;
    if OccursAt(s, n, q) {
      MarkerMissesValue(s, p, v, n, q);
    }
    if 0 <= q && q + |n| <= p {
      assert s[q..q + |n|] == t[q..q + |n|];
    }
    if p + |v| <= q && q + |n| <= |s| {
      assert s[q..q + |n|] == t[q - |v| + |m|..q - |v| + |m| + |n|];
    }
  }

  // --------------------------------------------- a step of the sequential loop

  /** The first marker sits at `p` and everything is separated. */
  ghost predicate StepAt(t: string, pairs: seq<Pair>, p: nat) {
    pairs != [] && Separated(t, pairs) && ShapedValues(pairs) && OnlyAt(t, pairs[0].0, p) && p + |pairs[0].0| <= |t|
  }

  function After(t: string, pairs: seq<Pair>, p: nat): (s: string)
    requires pairs != [] && p + |pairs[0].0| <= |t|
    ensures |s| == |t| - |pairs[0].0| + |pairs[0].1|
    ensures forall i | 0 <= i < p :: s[i] == t[i]
    ensures forall k | 0 <= k < |pairs[0].1| :: s[p + k] == pairs[0].1[k]
    ensures forall i | p + |pairs[0].0| <= i < |t| :: s[i - |pairs[0].0| + |pairs[0].1|] == t[i]
  {
    Spliced(t, p, pairs[0].0, pairs[0].1)
  }

  /** Every later marker keeps its single place, shifted when it lies to the right. */
  lemma LaterMarker(t: string, pairs: seq<Pair>, p: nat, k: nat, q: int)
    requires StepAt(t, pairs, p) && 1 <= k < |pairs|
    ensures OccursAt(t, pairs[k].0, q) ==> DisjointAt(p, pairs[0].0, q, pairs[k].0)
    ensures q + |pairs[k].0| <= p ==> (OccursAt(After(t, pairs, p), pairs[k].0, q) <==> OccursAt(t, pairs[k].0, q))
    ensures q >= p + |pairs[0].0| ==>
      (OccursAt(After(t, pairs, p), pairs[k].0, q - |pairs[0].0| + |pairs[0].1|) <==> OccursAt(t, pairs[k].0, q))
    ensures OccursAt(After(t, pairs, p), pairs[k].0, q) ==> q + |pairs[k].0| <= p || p + |pairs[0].1| <= q
  {
    hide OccursAt, Spliced;
    var (m, v) := pairs[0];
    var n := pairs[k].0;
    assert Apart(t, m, n);
    assert OccursAt(t, m, p);
    assert ValueShaped(v);
    SplicedOccurrences(t, p, m, v, n, q);
    SplicedOccurrences(t, p, m, v, n, q - |m| + |v|);
  }

  function Moved(pairs: seq<Pair>, p: nat, q: int): int
    requires pairs != []
  {
    if q < p then q else q - |pairs[0].0| + |pairs[0].1|
  }

  lemma StillHeldOnce(t: string, pairs: seq<Pair>, p: nat, k: nat)
    requires StepAt(t, pairs, p) && 1 <= k < |pairs|
    ensures HeldOnce(After(t, pairs, p), pairs[k].0)
  {
    hide OccursAt, Spliced, Apart;
    var n := pairs[k].0;
    var q: nat :| OnlyAt(t, n, q);
    var s, q' := After(t, pairs, p), Moved(pairs, p, q);
    LaterMarker(t, pairs, p, k, q);
    assert OccursAt(t, n, q);
    forall x ensures OccursAt(s, n, x) <==> x == q' {
      LaterMarker(t, pairs, p, k, x);
      LaterMarker(t, pairs, p, k, x + |pairs[0].0| - |pairs[0].1|);
    }
    assert OnlyAt(s, n, q');
  }

  lemma StillApart(t: string, pairs: seq<Pair>, p: nat, k: nat, l: nat)
    requires StepAt(t, pairs, p) && 1 <= k < l < |pairs|
    ensures Apart(After(t, pairs, p), pairs[k].0, pairs[l].0)
  {
    hide OccursAt, Spliced, OnlyAt;
    var s, shift := After(t, pairs, p), |pairs[0].0| - |pairs[0].1|;
    assert Apart(t, pairs[k].0, pairs[l].0);
    forall x, y | OccursAt(s, pairs[k].0, x) && OccursAt(s, pairs[l].0, y) ensures DisjointAt(x, pairs[k].0, y, pairs[l].0) {
      LaterMarker(t, pairs, p, k, x);
      LaterMarker(t, pairs, p, k, x + shift);
      LaterMarker(t, pairs, p, l, y);
      LaterMarker(t, pairs, p, l, y + shift);
    }
  }

  lemma StillSeparated(t: string, pairs: seq<Pair>, p: nat)
    requires StepAt(t, pairs, p)
    ensures Separated(After(t, pairs, p), pairs[1..])
  {
    hide OccursAt, Spliced, Apart, HeldOnce, MarkerShaped;
    var rest := pairs[1..];
    forall k | 0 <= k < |rest| ensures MarkerShaped(rest[k].0) && HeldOnce(After(t, pairs, p), rest[k].0) {
      StillHeldOnce(t, pairs, p, k + 1);
    }
    forall k, l | 0 <= k < l < |rest| ensures Apart(After(t, pairs, p), rest[k].0, rest[l].0) {
      StillApart(t, pairs, p, k + 1, l + 1);
    }
  }

  lemma {:induction false} SameMatch(t: string, i: nat, s: string, j: nat, pairs: seq<Pair>)
    requires forall k | 0 <= k < |pairs| :: OccursAt(t, pairs[k].0, i) <==> OccursAt(s, pairs[k].0, j)
    ensures MatchAt(t, pairs, i) == MatchAt(s, pairs, j)
    decreases |pairs|
  {
    hide OccursAt;
    if pairs != [] {
      assert forall k | 0 <= k < |pairs| - 1 :: pairs[1..][k] == pairs[k + 1];
      SameMatch(t, i, s, j, pairs[1..]);
    }
  }

  lemma AtTheEnd(t: string, pairs: seq<Pair>)
    ensures Simultaneous(t, pairs, |t|) == ""
  {
  }

  lemma RightMatch(t: string, pairs: seq<Pair>, p: nat, i: nat)
    requires StepAt(t, pairs, p) && p + |pairs[0].0| <= i < |t|
    ensures var j := i - |pairs[0].0| + |pairs[0].1|;
            MatchAt(t, pairs, i) == MatchAt(After(t, pairs, p), pairs[1..], j)
  {
    hide Separated, Spliced;
    var s, j, rest := After(t, pairs, p), i - |pairs[0].0| + |pairs[0].1|, pairs[1..];
    OnlyThere(t, pairs[0].0, p, i);
    LaterNonEmpty(t, pairs, 0);
    hide OccursAt;
    forall k | 0 <= k < |rest| ensures OccursAt(t, rest[k].0, i) <==> OccursAt(s, rest[k].0, j) {
      LaterMarker(t, pairs, p, k + 1, i);
    }
    SameMatch(t, i, s, j, rest);
  }

  /** Two passes that match alike and continue alike produce the same text. */
  lemma SameStep(t: string, pairs: seq<Pair>, i: nat, s: string, rest: seq<Pair>, j: nat, width: nat)
    requires i < |t| && j < |s| && t[i] == s[j] && MatchAt(t, pairs, i) == MatchAt(s, rest, j)
    requires width == if MatchAt(t, pairs, i).Some? then |MatchAt(t, pairs, i).value.0| else 1
    requires i + width <= |t| && j + width <= |s|
    requires Simultaneous(t, pairs, i + width) == Simultaneous(s, rest, j + width)
    ensures Simultaneous(t, pairs, i) == Simultaneous(s, rest, j)
  {
    hide MatchAt, OccursAt;
  }

  /** How far a pass moves at a position, which is never past the end. */
  lemma WidthAt(t: string, pairs: seq<Pair>, i: nat) returns (width: nat)
    requires i < |t|
    ensures width == if MatchAt(t, pairs, i).Some? then |MatchAt(t, pairs, i).value.0| else 1
    ensures 0 < width && i + width <= |t|
  {
    MatchMeans(t, pairs, i);
    width := if MatchAt(t, pairs, i).Some? then |MatchAt(t, pairs, i).value.0| else 1;
  }

  /** Right of the replaced marker both passes produce the same text. */
  lemma {:induction false} SameOnTheRight(t: string, pairs: seq<Pair>, p: nat, i: nat)
    requires StepAt(t, pairs, p) && p + |pairs[0].0| <= i <= |t|
    ensures i - |pairs[0].0| + |pairs[0].1| <= |After(t, pairs, p)|
    ensures Simultaneous(t, pairs, i) == Simultaneous(After(t, pairs, p), pairs[1..], i - |pairs[0].0| + |pairs[0].1|)
    decreases |t| - i
  {
    hide Separated, OccursAt, MatchAt, After, Simultaneous, ShapedValues, OnlyAt;
    var s, j := After(t, pairs, p), i - |pairs[0].0| + |pairs[0].1|;
    if i == |t| {
      AtTheEnd(t, pairs);
      AtTheEnd(s, pairs[1..]);
    } else {
      RightMatch(t, pairs, p, i);
      var width := WidthAt(t, pairs, i);
      SameOnTheRight(t, pairs, p, i + width);
      SameStep(t, pairs, i, s, pairs[1..], j, width);
    }
  }

  lemma LeftMatch(t: string, pairs: seq<Pair>, p: nat, i: nat)
    requires StepAt(t, pairs, p) && i < p
    ensures MatchAt(t, pairs, i) == MatchAt(After(t, pairs, p), pairs[1..], i)
    ensures MatchAt(t, pairs, i).Some? ==> i + |MatchAt(t, pairs, i).value.0| <= p
  {
    hide Separated, Spliced;
    var s, rest := After(t, pairs, p), pairs[1..];
    OnlyThere(t, pairs[0].0, p, i);
    hide OccursAt;
    forall k | 0 <= k < |rest| ensures OccursAt(t, rest[k].0, i) <==> OccursAt(s, rest[k].0, i)
      ensures OccursAt(t, rest[k].0, i) ==> i + |rest[k].0| <= p
    {
      LaterMarker(t, pairs, p, k + 1, i);
    }
    SameMatch(t, i, s, i, rest);
    MatchMeans(t, rest, i);
  }

  /** Inside the inserted value no marker matches, so it is copied. */
  lemma {:induction false} ValueCopied(t: string, pairs: seq<Pair>, p: nat, j: nat)
    requires StepAt(t, pairs, p) && j <= |pairs[0].1|
    ensures p + |pairs[0].1| <= |After(t, pairs, p)|
    ensures Simultaneous(After(t, pairs, p), pairs[1..], p + j)
         == pairs[0].1[j..] + Simultaneous(After(t, pairs, p), pairs[1..], p + |pairs[0].1|)
    decreases |pairs[0].1| - j
  {
    hide Separated, OccursAt, MatchAt, After, Simultaneous, ShapedValues, OnlyAt;
    var s, v, rest := After(t, pairs, p), pairs[0].1, pairs[1..];
    if j == |v| {
      assert v[j..] == "";
    } else {
      assert v[j..] == [v[j]] + v[j + 1..];
      NoMatchInValue(t, pairs, p, j);
      ValueCopied(t, pairs, p, j + 1);
      CopyStep(s, rest, p + j);
    }
  }

  lemma CopyStep(s: string, pairs: seq<Pair>, i: nat)
    requires i < |s| && MatchAt(s, pairs, i).None?
    ensures Simultaneous(s, pairs, i) == [s[i]] + Simultaneous(s, pairs, i + 1)
  {
    hide MatchAt;
  }

  lemma NoMatchInValue(t: string, pairs: seq<Pair>, p: nat, j: nat)
    requires StepAt(t, pairs, p) && j < |pairs[0].1|
    ensures MatchAt(After(t, pairs, p), pairs[1..], p + j) == None
  {
    hide Separated, OccursAt, Spliced;
    var s, rest := After(t, pairs, p), pairs[1..];
    forall k | 0 <= k < |rest| ensures !OccursAt(s, rest[k].0, p + j) {
      LaterMarker(t, pairs, p, k + 1, p + j);
      LaterNonEmpty(t, pairs, k + 1);
    }
    MatchMeans(s, rest, p + j);
  }

  lemma LaterNonEmpty(t: string, pairs: seq<Pair>, k: nat)
    requires Separated(t, pairs) && k < |pairs|
    ensures |pairs[k].0| >= 2
  {
  }

  /** Up to and including the replaced marker both passes produce the same text. */
  lemma {:induction false} SameOnTheLeft(t: string, pairs: seq<Pair>, p: nat, i: nat)
    requires StepAt(t, pairs, p) && i <= p
    ensures i <= |After(t, pairs, p)|
    ensures Simultaneous(t, pairs, i) == Simultaneous(After(t, pairs, p), pairs[1..], i)
    decreases p - i
  {
    hide Separated, OccursAt, MatchAt, After, Simultaneous, ShapedValues, OnlyAt;
    var s := After(t, pairs, p);
    if i == p {
      AtTheMarker(t, pairs, p);
    } else {
      LeftMatch(t, pairs, p, i);
      var width := WidthAt(t, pairs, i);
      SameOnTheLeft(t, pairs, p, i + width);
      SameStep(t, pairs, i, s, pairs[1..], i, width);
    }
  }

  lemma FirstMatch(t: string, pairs: seq<Pair>, p: nat)
    requires StepAt(t, pairs, p)
    ensures p + |pairs[0].0| <= |t|
    ensures Simultaneous(t, pairs, p) == pairs[0].1 + Simultaneous(t, pairs, p + |pairs[0].0|)
  {
    OnlyThere(t, pairs[0].0, p, p);
    LaterNonEmpty(t, pairs, 0);
    assert MatchAt(t, pairs, p) == Some(pairs[0]);
    hide Separated, OccursAt, MatchAt;
  }

  lemma AtTheMarker(t: string, pairs: seq<Pair>, p: nat)
    requires StepAt(t, pairs, p)
    ensures p <= |After(t, pairs, p)|
    ensures Simultaneous(t, pairs, p) == Simultaneous(After(t, pairs, p), pairs[1..], p)
  {
    assert pairs != [];
    hide Separated, OccursAt, MatchAt, StepAt, After, Simultaneous, Spliced, ShapedValues, OnlyAt;
    var m, v := pairs[0].0, pairs[0].1;
    FirstMatch(t, pairs, p);
    assert p + |m| - |m| + |v| == p + |v| && p + 0 == p;
    SameOnTheRight(t, pairs, p, p + |m|);
    ValueCopied(t, pairs, p, 0);
    assert v[0..] == v;
  }

  lemma {:induction false} NothingToReplace(t: string, i: nat)
    requires i <= |t|
    ensures Simultaneous(t, [], i) == t[i..]
    decreases |t| - i
  {
    if i < |t| {
      NothingToReplace(t, i + 1);
      assert t[i..] == [t[i]] + t[i + 1..];
    }
  }

  /**
   * When every marker is held once, the markers do not overlap and the values hold no underscore and
   * more than eight characters, the loop passes every count and equals one simultaneous substitution.
   */
  lemma {:induction false} SequentialIsSimultaneous(t: string, pairs: seq<Pair>)
    requires Separated(t, pairs) && ShapedValues(pairs)
    ensures Sequential(t, pairs) == Some(Simultaneous(t, pairs, 0))
    decreases |pairs|
  {
    if pairs == [] {
      NothingToReplace(t, 0);
      assert t[0..] == t;
    } else {
      var p := FirstStep(t, pairs);
      var s := After(t, pairs, p);
      StillSeparated(t, pairs, p);
      assert ShapedValues(pairs[1..]);
      SequentialIsSimultaneous(s, pairs[1..]);
      SameOnTheLeft(t, pairs, p, 0);
    }
  }

  /** The loop's first iteration is the splice at the marker's only place. */
  lemma FirstStep(t: string, pairs: seq<Pair>) returns (p: nat)
    requires pairs != [] && Separated(t, pairs) && ShapedValues(pairs)
    ensures StepAt(t, pairs, p)
    ensures Sequential(t, pairs) == Sequential(After(t, pairs, p), pairs[1..])
  {
    var m := pairs[0].0;
    assert HeldOnce(t, m);
    p :| OnlyAt(t, m, p);
    OnlyThere(t, m, p, p);
    MatchFits(t, m, p);
    StepTaken(t, pairs, p);
  }

  lemma StepTaken(t: string, pairs: seq<Pair>, p: nat)
    requires StepAt(t, pairs, p)
    ensures Sequential(t, pairs) == Sequential(After(t, pairs, p), pairs[1..])
  {
    var (m, v) := pairs[0];
    LaterNonEmpty(t, pairs, 0);
    hide Separated, OnlyAt, OccursAt, CountFrom, ReplaceFrom, ShapedValues;
    CountOnce(t, m, p, 0);
    ReplaceOnce(t, m, v, p, 0);
    assert t[0..p] == t[..p];
    assert ReplaceFrom(t, m, v, 0) == After(t, pairs, p);
  }

  lemma MatchFits(t: string, m: string, i: nat)
    requires OccursAt(t, m, i)
    ensures i + |m| <= |t|
  {
  }

  // -------------------------------------------------------- any marker order

  lemma SeparatedReordered(t: string, a: seq<Pair>, b: seq<Pair>)
    requires Separated(t, a) && multiset(a) == multiset(b)
    ensures Separated(t, b)
  {
    hide OccursAt, MarkerShaped;
    forall k | 0 <= k < |b| ensures MarkerShaped(b[k].0) && HeldOnce(t, b[k].0) {
      assert b[k] in multiset(a);
    }
    forall k, l | 0 <= k < l < |b| ensures Apart(t, b[k].0, b[l].0) {
      assert b[k] in multiset(a) && b[l] in multiset(a);
      if b[k] == b[l] {
        CountedTwice(b, k, l);
        Twice(a, b[k]);
      } else {
        var i :| 0 <= i < |a| && a[i] == b[k];
        var j :| 0 <= j < |a| && a[j] == b[l];
        assert i < j ==> Apart(t, a[i].0, a[j].0);
        assert j < i ==> Apart(t, a[j].0, a[i].0);
      }
    }
  }

  /** At most one marker can match at a place. */
  lemma OneMatch(t: string, pairs: seq<Pair>, i: nat, x: Pair, y: Pair)
    requires Separated(t, pairs) && x in pairs && y in pairs && OccursAt(t, x.0, i) && OccursAt(t, y.0, i)
    ensures x == y
  {
    hide OccursAt;
    var k :| 0 <= k < |pairs| && pairs[k] == x;
    var l :| 0 <= l < |pairs| && pairs[l] == y;
    LaterNonEmpty(t, pairs, k);
    LaterNonEmpty(t, pairs, l);
    assert k < l ==> Apart(t, x.0, y.0);
    assert l < k ==> Apart(t, y.0, x.0);
  }

  lemma MatchFound(t: string, pairs: seq<Pair>, i: nat, x: Pair)
    requires x in pairs && x.0 != "" && OccursAt(t, x.0, i)
    ensures MatchAt(t, pairs, i).Some?
  {
    MatchMeans(t, pairs, i);
    var k :| 0 <= k < |pairs| && pairs[k] == x;
  }

  lemma SameMatchReordered(t: string, a: seq<Pair>, b: seq<Pair>, i: nat)
    requires Separated(t, a) && forall x :: x in a <==> x in b
    ensures MatchAt(t, a, i) == MatchAt(t, b, i)
  {
    MatchMeans(t, a, i);
    MatchMeans(t, b, i);
    hide OccursAt, MatchAt, Separated;
    if MatchAt(t, a, i).Some? {
      MatchFound(t, b, i, MatchAt(t, a, i).value);
    }
    if MatchAt(t, b, i).Some? {
      MatchFound(t, a, i, MatchAt(t, b, i).value);
      OneMatch(t, a, i, MatchAt(t, a, i).value, MatchAt(t, b, i).value);
    }
  }

  lemma {:induction false} SimultaneousReordered(t: string, a: seq<Pair>, b: seq<Pair>, i: nat)
    requires Separated(t, a) && (forall x :: x in a <==> x in b) && i <= |t|
    ensures Simultaneous(t, a, i) == Simultaneous(t, b, i)
    decreases |t| - i
  {
    hide OccursAt, MatchAt, Separated, Simultaneous;
    if i == |t| {
      AtTheEnd(t, a);
      AtTheEnd(t, b);
    } else {
      SameMatchReordered(t, a, b, i);
      var width := WidthAt(t, a, i);
      SimultaneousReordered(t, a, b, i + width);
      SameStep(t, a, i, t, b, i, width);
    }
  }

  /** The order in which the markers are replaced does not matter. */
  lemma AnyOrder(t: string, a: seq<Pair>, b: seq<Pair>)
    requires Separated(t, a) && ShapedValues(a) && multiset(a) == multiset(b)
    ensures Sequential(t, a) == Sequential(t, b) == Some(Simultaneous(t, a, 0))
  {
    hide Separated, Simultaneous, Sequential;
    assert forall x :: x in a <==> x in multiset(a);
    assert forall x :: x in b <==> x in multiset(b);
    SeparatedReordered(t, a, b);
    forall k | 0 <= k < |b| ensures ValueShaped(b[k].1) {
      assert b[k] in a;
    }
    SequentialIsSimultaneous(t, a);
    SequentialIsSimultaneous(t, b);
    SimultaneousReordered(t, a, b, 0);
  }

  // ---------------------------------------------- each value at its own marker

  /** From any place at or left of a marker the pass reaches it and puts that marker's value there. */
  lemma {:induction false} PassReaches(t: string, pairs: seq<Pair>, x: Pair, i: nat, p: nat) returns (head: string)
    requires Separated(t, pairs) && x in pairs && OccursAt(t, x.0, p) && i <= p <= |t|
    ensures p + |x.0| <= |t|
    ensures Simultaneous(t, pairs, i) == head + x.1 + Simultaneous(t, pairs, p + |x.0|)
    decreases p - i
  {
    MatchFits(t, x.0, p);
    hide OccursAt, MatchAt, Separated, Simultaneous;
    if i == p {
      head := "";
      MarkerTaken(t, pairs, x, p);
      assert "" + x.1 == x.1;
    } else {
      var step, piece := StepToward(t, pairs, x, i, p);
      var rest := PassReaches(t, pairs, x, i + step, p);
      head := piece + rest;
      assert piece + (rest + x.1 + Simultaneous(t, pairs, p + |x.0|)) == head + x.1 + Simultaneous(t, pairs, p + |x.0|);
    }
  }

  lemma MarkerTaken(t: string, pairs: seq<Pair>, x: Pair, p: nat)
    requires Separated(t, pairs) && x in pairs && OccursAt(t, x.0, p) && p + |x.0| <= |t|
    ensures Simultaneous(t, pairs, p) == x.1 + Simultaneous(t, pairs, p + |x.0|)
  {
    var k :| 0 <= k < |pairs| && pairs[k] == x;
    LaterNonEmpty(t, pairs, k);
    MatchFound(t, pairs, p, x);
    MatchMeans(t, pairs, p);
    hide OccursAt, MatchAt, Separated;
    OneMatch(t, pairs, p, x, MatchAt(t, pairs, p).value);
  }

  /** A step of the pass left of a marker ends left of it too. */
  lemma StepToward(t: string, pairs: seq<Pair>, x: Pair, i: nat, p: nat) returns (step: nat, piece: string)
    requires Separated(t, pairs) && x in pairs && OccursAt(t, x.0, p) && i < p < |t|
    ensures 0 < step && i + step <= p
    ensures Simultaneous(t, pairs, i) == piece + Simultaneous(t, pairs, i + step)
  {
    hide OccursAt, Separated, MatchAt, Simultaneous;
    step := WidthAt(t, pairs, i);
    MatchMeans(t, pairs, i);
    piece := if MatchAt(t, pairs, i).Some? then MatchAt(t, pairs, i).value.1 else [t[i]];
    if MatchAt(t, pairs, i).Some? {
      NoOverlap(t, pairs, MatchAt(t, pairs, i).value, i, x, p);
    }
    OneStep(t, pairs, i);
  }

  lemma OneStep(t: string, pairs: seq<Pair>, i: nat)
    requires i < |t|
    ensures MatchAt(t, pairs, i).None? ==> Simultaneous(t, pairs, i) == [t[i]] + Simultaneous(t, pairs, i + 1)
    ensures MatchAt(t, pairs, i).Some? ==> i + |MatchAt(t, pairs, i).value.0| <= |t|
    ensures MatchAt(t, pairs, i).Some? ==>
      Simultaneous(t, pairs, i) == MatchAt(t, pairs, i).value.1 + Simultaneous(t, pairs, i + |MatchAt(t, pairs, i).value.0|)
  {
    var width := WidthAt(t, pairs, i);
    hide OccursAt, MatchAt;
  }

  lemma NoOverlap(t: string, pairs: seq<Pair>, y: Pair, i: nat, x: Pair, p: nat)
    requires Separated(t, pairs) && x in pairs && y in pairs && i < p && OccursAt(t, y.0, i) && OccursAt(t, x.0, p)
    ensures i + |y.0| <= p
  {
    hide OccursAt;
    var k :| 0 <= k < |pairs| && pairs[k] == x;
    var l :| 0 <= l < |pairs| && pairs[l] == y;
    LaterNonEmpty(t, pairs, k);
    assert HeldOnce(t, pairs[k].0);
    assert k < l ==> Apart(t, x.0, y.0);
    assert l < k ==> Apart(t, y.0, x.0);
  }

  // -------------------------------------------------------- what is left over

  /** An occurrence of a pattern that touches no marker. */
  ghost predicate FreeAt(t: string, pairs: seq<Pair>, pat: string, q: int) {
    OccursAt(t, pat, q) && forall k, p | 0 <= k < |pairs| && OccursAt(t, pairs[k].0, p) :: DisjointAt(p, pairs[k].0, q, pat)
  }

  lemma FreeMoves(t: string, pairs: seq<Pair>, p: nat, pat: string, q: int)
    requires StepAt(t, pairs, p) && MarkerShaped(pat) && FreeAt(t, pairs, pat, q)
    ensures FreeAt(After(t, pairs, p), pairs[1..], pat, Moved(pairs, p, q))
  {
    hide OccursAt, Spliced, Separated;
    var m, v := pairs[0].0, pairs[0].1;
    OnlyThere(t, m, p, p);
    assert DisjointAt(p, m, q, pat) by { assert OccursAt(t, pairs[0].0, p); }
    assert ValueShaped(v);
    var s, q', rest := After(t, pairs, p), Moved(pairs, p, q), pairs[1..];
    LaterNonEmpty(t, pairs, 0);
    SplicedOccurrences(t, p, m, v, pat, q');
    forall k, x | 0 <= k < |rest| && OccursAt(s, rest[k].0, x) ensures DisjointAt(x, rest[k].0, q', pat) {
      var n := pairs[k + 1].0;
      LaterNonEmpty(t, pairs, k + 1);
      LaterMarker(t, pairs, p, k + 1, x);
      LaterMarker(t, pairs, p, k + 1, x + |m| - |v|);
      assert x + |n| <= p ==> DisjointAt(x, n, q, pat);
      assert p + |v| <= x ==> OccursAt(t, pairs[k + 1].0, x + |m| - |v|);
      assert p + |v| <= x ==> DisjointAt(x + |m| - |v|, n, q, pat);
    }
  }

  lemma FreeMovesBack(t: string, pairs: seq<Pair>, p: nat, pat: string, q': int) returns (q: int)
    requires StepAt(t, pairs, p) && MarkerShaped(pat) && FreeAt(After(t, pairs, p), pairs[1..], pat, q')
    ensures FreeAt(t, pairs, pat, q)
  {
    hide OccursAt, Spliced, Separated;
    var m, v, s := pairs[0].0, pairs[0].1, After(t, pairs, p);
    assert ValueShaped(v);
    SplicedOccurrences(t, p, m, v, pat, q');
    q := if q' + |pat| <= p then q' else q' - |v| + |m|;
    forall k, x | 0 <= k < |pairs| && OccursAt(t, pairs[k].0, x) ensures DisjointAt(x, pairs[k].0, q, pat) {
      if k == 0 {
        OnlyThereInt(t, m, p, x);
      } else {
        var n := pairs[k].0;
        LaterNonEmpty(t, pairs, k);
        LaterMarker(t, pairs, p, k, x);
        assert pairs[1..][k - 1].0 == n;
        assert OccursAt(s, pairs[1..][k - 1].0, if x + |n| <= p then x else x - |m| + |v|);
      }
    }
  }

  lemma OnlyThereInt(t: string, m: string, p: nat, x: int)
    requires OnlyAt(t, m, p) && OccursAt(t, m, x)
    ensures x == p
  {
  }

  /** A pattern remains in the rendered text exactly when the template holds it away from every marker. */
  lemma {:induction false} Leftover(t: string, pairs: seq<Pair>, pat: string)
    requires Separated(t, pairs) && ShapedValues(pairs) && MarkerShaped(pat)
    ensures Sequential(t, pairs).Some?
    ensures Contains(Sequential(t, pairs).value, pat) <==> exists q :: FreeAt(t, pairs, pat, q)
    decreases |pairs|
  {
    if pairs == [] {
      if Contains(t, pat) {
        var q :| 0 <= q <= |t| && OccursAt(t, pat, q);
        assert FreeAt(t, pairs, pat, q);
      }
    } else {
      hide OccursAt, Separated, MarkerShaped;
      var p := FirstStep(t, pairs);
      var s := After(t, pairs, p);
      StillSeparated(t, pairs, p);
      Leftover(s, pairs[1..], pat);
      if exists q :: FreeAt(t, pairs, pat, q) {
        var q :| FreeAt(t, pairs, pat, q);
        FreeMoves(t, pairs, p, pat, q);
      }
      if exists q' :: FreeAt(s, pairs[1..], pat, q') {
        var q' :| FreeAt(s, pairs[1..], pat, q');
        var q := FreeMovesBack(t, pairs, p, pat, q');
      }
    }
  }

  // ------------------------------------------------------------ the renderer

  const LEFTOVERS := ["__EDGE_", "__DEVSTAND_"]
  const MAX_BYTES := 262144

  /** Substitutes the markers in order and refuses leftovers and oversized results. */
  method Render(template: string, pairs: seq<Pair>, utf8Length: string -> nat) returns (r: Option<string>)
    ensures r.Some? ==> Sequential(template, pairs) == r
    ensures r.Some? <==> Sequential(template, pairs).Some? && var text := Sequential(template, pairs).value;
      !Contains(text, LEFTOVERS[0]) && !Contains(text, LEFTOVERS[1]) && utf8Length(text) <= MAX_BYTES
  {
    var text := template;
    for i := 0 to |pairs|
      invariant Sequential(template, pairs) == Sequential(text, pairs[i..])
    {
      var (marker, value) := pairs[i];
      assert pairs[i..][1..] == pairs[i + 1..];
      if marker == "" || CountFrom(text, marker, 0) != 1 {
        return None;
      }
      text := ReplaceFrom(text, marker, value, 0);
    }
    assert pairs[|pairs|..] == [];
    if Contains(text, LEFTOVERS[0]) || Contains(text, LEFTOVERS[1]) || utf8Length(text) > MAX_BYTES {
      return None;
    }
    return Some(text);
  }

  datatype Assets = Assets(nginx: string, proxy: string, fetchKey: string, autossh: string)

  predicate SecretId(s: string) { |s| == 20 && forall c | c in s :: 'a' <= c <= 'z' || '0' <= c <= '9' }

  predicate KeyText(s: string) {
    s != "" && forall c | c in s :: 'A' <= c <= 'Z' || 'a' <= c <= 'z' || '0' <= c <= '9' || c == '+' || c == '/' || c == '='
  }

  predicate KnownHost(line: string) {
    var ed, ec := "188.227.84.107 ssh-ed25519 ", "188.227.84.107 ecdsa-sha2-nistp256 ";
    (ed <= line && KeyText(line[|ed|..])) || (ec <= line && KeyText(line[|ec|..]))
  }

  function Replacements(encode: string -> seq<Byte>, a: Assets, secretId: string, knownHost: string): seq<Pair> {
    [ ("__EDGE_NGINX_CONFIG_B64__", Base64(encode(a.nginx))),
      ("__EDGE_PROXY_CONFIG_B64__", Base64(encode(a.proxy))),
      ("__EDGE_FETCH_KEY_SCRIPT_B64__", Base64(encode(a.fetchKey))),
      ("__EDGE_AUTOSSH_SERVICE_B64__", Base64(encode(a.autossh))),
      ("__EDGE_SECRET_ID__", secretId),
      ("__DEVSTAND_KNOWN_HOST_B64__", Base64(encode(knownHost + "\n"))) ]
  }

  /** Underscores no more than nine apart, from the first character to the last, make a marker. */
  lemma UnderscoresCover(m: string, at: seq<nat>)
    requires |at| >= 2 && at[0] == 0 && at[|at| - 1] == |m| - 1
    requires forall j | 0 <= j < |at| :: at[j] < |m| && m[at[j]] == '_'
    requires forall j | 0 <= j < |at| - 1 :: at[j] < at[j + 1] <= at[j] + 9
    ensures MarkerShaped(m)
  {
    assert m[at[0]] == '_' && m[at[|at| - 1]] == '_' && at[0] < at[1];
    forall i | 0 <= i <= |m| - 9 ensures UnderscoreSoon(m, i) {
      var j := 0;
      while at[j] < i
        invariant 0 <= j < |at| && (j > 0 ==> at[j - 1] < i)
        decreases |at| - j
      {
        j := j + 1;
      }
      assert m[at[j]] == '_' && i <= at[j] < i + 9;
    }
  }

  lemma NginxMarker()
    ensures MarkerShaped("__EDGE_NGINX_CONFIG_B64__")
  {
    hide MarkerShaped;
    UnderscoresCover("__EDGE_NGINX_CONFIG_B64__", [0, 1, 6, 12, 19, 23, 24]);
  }

  lemma ProxyMarker()
    ensures MarkerShaped("__EDGE_PROXY_CONFIG_B64__")
  {
    hide MarkerShaped;
    UnderscoresCover("__EDGE_PROXY_CONFIG_B64__", [0, 1, 6, 12, 19, 23, 24]);
  }

  lemma FetchKeyMarker()
    ensures MarkerShaped("__EDGE_FETCH_KEY_SCRIPT_B64__")
  {
    hide MarkerShaped;
    UnderscoresCover("__EDGE_FETCH_KEY_SCRIPT_B64__", [0, 1, 6, 12, 16, 23, 27, 28]);
  }

  lemma AutosshMarker()
    ensures MarkerShaped("__EDGE_AUTOSSH_SERVICE_B64__")
  {
    hide MarkerShaped;
    UnderscoresCover("__EDGE_AUTOSSH_SERVICE_B64__", [0, 1, 6, 14, 22, 26, 27]);
  }

  lemma IdMarkers()
    ensures MarkerShaped("__EDGE_SECRET_ID__") && MarkerShaped("__DEVSTAND_KNOWN_HOST_B64__")
  {
    hide MarkerShaped;
    UnderscoresCover("__EDGE_SECRET_ID__", [0, 1, 6, 13, 16, 17]);
    UnderscoresCover("__DEVSTAND_KNOWN_HOST_B64__", [0, 1, 10, 16, 21, 25, 26]);
  }

  lemma LeftoverMarkers()
    ensures MarkerShaped(LEFTOVERS[0]) && MarkerShaped(LEFTOVERS[1])
  {
    hide MarkerShaped;
    UnderscoresCover("__EDGE_", [0, 1, 6]);
    UnderscoresCover("__DEVSTAND_", [0, 1, 10]);
  }

  /** Encodings keep at least one byte per character; seven characters make more than eight of base64. */
  ghost predicate KeepsLength(encode: string -> seq<Byte>) { forall s :: |encode(s)| >= |s| }

  predicate Substantial(a: Assets) { |a.nginx| >= 7 && |a.proxy| >= 7 && |a.fetchKey| >= 7 && |a.autossh| >= 7 }

  lemma ReplacementsShaped(encode: string -> seq<Byte>, a: Assets, secretId: string, knownHost: string)
    requires KeepsLength(encode) && Substantial(a) && SecretId(secretId) && KnownHost(knownHost)
    ensures var pairs := Replacements(encode, a, secretId, knownHost);
            ShapedValues(pairs) && forall k | 0 <= k < |pairs| :: MarkerShaped(pairs[k].0)
  {
    hide MarkerShaped, Base64;
    NginxMarker();
    ProxyMarker();
    FetchKeyMarker();
    AutosshMarker();
    IdMarkers();
    assert |knownHost| >= 7;
    assert '_' !in secretId;
  }

  /** Each marker of the template occurs once and no two of them overlap. */
  ghost predicate TemplateHolds(t: string, pairs: seq<Pair>) {
    && (forall k | 0 <= k < |pairs| :: HeldOnce(t, pairs[k].0))
    && (forall k, l | 0 <= k < l < |pairs| :: Apart(t, pairs[k].0, pairs[l].0))
  }

  /** Six values, each beside the marker the template holds for it. */
  ghost function Placed(values: seq<string>): seq<Pair>
    requires |values| == 6
  {
    [ ("__EDGE_NGINX_CONFIG_B64__", values[0]), ("__EDGE_PROXY_CONFIG_B64__", values[1]),
      ("__EDGE_FETCH_KEY_SCRIPT_B64__", values[2]), ("__EDGE_AUTOSSH_SERVICE_B64__", values[3]),
      ("__EDGE_SECRET_ID__", values[4]), ("__DEVSTAND_KNOWN_HOST_B64__", values[5]) ]
  }

  /** Values that decode to the bytes of the four assets and of the known-host line, and the secret id. */
  ghost predicate Carries(values: seq<string>, encode: string -> seq<Byte>, a: Assets, secretId: string, knownHost: string) {
    && |values| == 6
    && Decode(values[0]) == Some(encode(a.nginx))
    && Decode(values[1]) == Some(encode(a.proxy))
    && Decode(values[2]) == Some(encode(a.fetchKey))
    && Decode(values[3]) == Some(encode(a.autossh))
    && values[4] == secretId
    && Decode(values[5]) == Some(encode(knownHost + "\n"))
  }

  lemma ReplacementsCarry(encode: string -> seq<Byte>, a: Assets, secretId: string, knownHost: string) returns (values: seq<string>)
    ensures |values| == 6 && Carries(values, encode, a, secretId, knownHost)
    ensures Replacements(encode, a, secretId, knownHost) == Placed(values)
  {
    hide Base64, Decode;
    values := [ Base64(encode(a.nginx)), Base64(encode(a.proxy)), Base64(encode(a.fetchKey)),
                Base64(encode(a.autossh)), secretId, Base64(encode(knownHost + "\n")) ];
    Base64RoundTrip(encode(a.nginx));
    Base64RoundTrip(encode(a.proxy));
    Base64RoundTrip(encode(a.fetchKey));
    Base64RoundTrip(encode(a.autossh));
    Base64RoundTrip(encode(knownHost + "\n"));
  }

  /** The value stands in the text where the template holds the marker: the pass over the rest follows it. */
  ghost predicate StandsAt(t: string, pairs: seq<Pair>, text: string, x: Pair) {
    exists p: nat, head: string | OnlyAt(t, x.0, p) && p + |x.0| <= |t| :: text == head + x.1 + Simultaneous(t, pairs, p + |x.0|)
  }

  lemma ValueInPlace(t: string, pairs: seq<Pair>, k: nat)
    requires Separated(t, pairs) && k < |pairs|
    ensures StandsAt(t, pairs, Simultaneous(t, pairs, 0), pairs[k])
  {
    var x := pairs[k];
    assert HeldOnce(t, pairs[k].0);
    var p: nat :| OnlyAt(t, x.0, p);
    OnlyThere(t, x.0, p, p);
    MatchFits(t, x.0, p);
    hide OnlyAt, OccursAt, Separated, Simultaneous;
    var head := PassReaches(t, pairs, x, 0, p);
  }

  /** The whole renderer. */
  method RenderCloudInit(template: string, encode: string -> seq<Byte>, a: Assets, secretId: string, knownHost: string)
    returns (r: Option<string>, ghost values: seq<string>)
    // every asset comes back from the value beside its own marker, and the secret id is beside its own
    ensures Carries(values, encode, a, secretId, knownHost)
    ensures r.Some? ==> SecretId(secretId) && KnownHost(knownHost)
    ensures r.Some? ==> r == Sequential(template, Placed(values)) && |encode(r.value)| <= MAX_BYTES
    // on a well-formed template the result is one simultaneous substitution with each value in its
    // marker's place; it is refused exactly for a leftover marker away from the known ones, or for its size
    ensures SecretId(secretId) && KnownHost(knownHost) && KeepsLength(encode) && Substantial(a)
            && TemplateHolds(template, Placed(values)) ==>
      var pairs := Placed(values);
      var text := Simultaneous(template, pairs, 0);
      (r.Some? ==> r.value == text) &&
      (forall k | 0 <= k < 6 :: StandsAt(template, pairs, text, pairs[k])) &&
      (r.Some? <==> |encode(text)| <= MAX_BYTES
                    && (forall q :: !FreeAt(template, pairs, LEFTOVERS[0], q)) && (forall q :: !FreeAt(template, pairs, LEFTOVERS[1], q)))
  {
    hide Replacements, Placed, Carries, Sequential, Simultaneous, FreeAt, StandsAt, HeldOnce, Apart, MarkerShaped, Contains, SecretId, KnownHost;
    values := ReplacementsCarry(encode, a, secretId, knownHost);
    if !SecretId(secretId) || !KnownHost(knownHost) {
      return None, values;
    }
    var pairs := Replacements(encode, a, secretId, knownHost);
    r := Render(template, pairs, s => |encode(s)|);
    if KeepsLength(encode) && Substantial(a) && TemplateHolds(template, pairs) {
      ReplacementsShaped(encode, a, secretId, knownHost);
      SequentialIsSimultaneous(template, pairs);
      SixPairs(values);
      forall k | 0 <= k < 6 ensures StandsAt(template, pairs, Simultaneous(template, pairs, 0), pairs[k]) {
        ValueInPlace(template, pairs, k);
      }
      LeftoverMarkers();
      Leftover(template, pairs, LEFTOVERS[0]);
      Leftover(template, pairs, LEFTOVERS[1]);
    }
  }

  lemma SixPairs(values: seq<string>)
    requires |values| == 6
    ensures |Placed(values)| == 6
  {
  }
}
